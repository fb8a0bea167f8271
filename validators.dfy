/** Optional values; `None` also stands for JavaScript's NaN where a number is parsed. */
module Optional {
  datatype Option<+T> = None | Some(value: T)
}

/**
 * The four field validators of the account form: `checkAge`, `checkEmail`,
 * `checkPasswd` and `validatePhoneNumber`. Each is a JavaScript regular
 * expression (non-unicode mode, no flags, so `^` and `$` anchor at the ends
 * of the whole string) or a range test, modelled as a predicate over the
 * characters of the string, written to follow the pattern's structure.
 */
module FieldValidators {
  import opened Optional

  // ---------------------------------------------------------------------
  // Character classes

  /** `\d` and `[0-9]` */
  predicate IsDigit(c: char) { '0' <= c <= '9' }

  /** `\w` */
  predicate IsWordChar(c: char) {
    'A' <= c <= 'Z' || 'a' <= c <= 'z' || IsDigit(c) || c == '_'
  }

  /** `[\w-\.]`: a class escape before `-` makes the `-` literal, so this is `\w`, `-` and `.` */
  predicate IsLocalChar(c: char) { IsWordChar(c) || c == '-' || c == '.' }

  /** `[\w-]` */
  predicate IsLabelChar(c: char) { IsWordChar(c) || c == '-' }

  /** The line terminators, which `.` does not match */
  predicate IsLineTerminator(c: char) {
    c == '\n' || c == '\r' || c == '\U{2028}' || c == '\U{2029}'
  }

  predicate AllDigits(s: seq<char>) { forall i | 0 <= i < |s| :: IsDigit(s[i]) }

  predicate AllLocalChars(s: seq<char>) { forall i | 0 <= i < |s| :: IsLocalChar(s[i]) }

  predicate AllLabelChars(s: seq<char>) { forall i | 0 <= i < |s| :: IsLabelChar(s[i]) }

  predicate NoLineTerminator(s: seq<char>) { forall i | 0 <= i < |s| :: !IsLineTerminator(s[i]) }

  /** Number of occurrences of `c` in `s` */
  function Count(c: char, s: seq<char>): nat {
    if s == [] then 0 else (if s[0] == c then 1 else 0) + Count(c, s[1..])
  }

  // ---------------------------------------------------------------------
  // checkAge: parseInt(a) > 0 && parseInt(a) <= 120 && /^[0-9]{1,3}$/.test(a)

  function DigitValue(c: char): nat
    requires IsDigit(c)
  {
    (c as int) - ('0' as int)
  }

  /** The decimal value of a digit string, read left to right */
  function DecimalValue(s: seq<char>): nat
    requires AllDigits(s)
  {
    if s == [] then 0 else 10 * DecimalValue(s[..|s| - 1]) + DigitValue(s[|s| - 1])
  }

  /** Length of the longest run of digits that starts `s` */
  function DigitRun(s: seq<char>): (n: nat)
    ensures n <= |s|
    ensures AllDigits(s[..n])
    ensures n < |s| ==> !IsDigit(s[n])
  {
    if s == [] || !IsDigit(s[0]) then 0 else 1 + DigitRun(s[1..])
  }

  /**
   * `parseInt(s)`, reading the leading decimal digits; `None` is NaN, and a
   * comparison with NaN is false. Leading white space, a sign and a `0x`
   * prefix are not modelled: the pattern conjunct of `checkAge` rejects every
   * string that has one, so the result of `checkAge` does not depend on them.
   */
  function ParseInt(s: seq<char>): (r: Option<nat>)
    ensures r.None? <==> (s == [] || !IsDigit(s[0]))
  {
    var n := DigitRun(s);
    if n == 0 then None else Some(DecimalValue(s[..n]))
  }

  /** `/^[0-9]{1,3}$/` */
  predicate AgePattern(a: seq<char>) { 1 <= |a| <= 3 && AllDigits(a) }

  /** `checkAge`'s test */
  predicate AgeValid(a: seq<char>) {
    var v := ParseInt(a);
    v.Some? && v.value > 0 && v.value <= 120 && AgePattern(a)
  }

  /** On a string of digits, `parseInt` reads all of it. */
  lemma ParseIntAllDigits(s: seq<char>)
    requires s != [] && AllDigits(s)
    ensures ParseInt(s) == Some(DecimalValue(s))
  {
    var n := DigitRun(s);
    assert s[..n] == s;
  }

  /** `checkAge` accepts exactly 1 to 3 digits whose decimal value is in 1..120. */
  lemma AgeValidIff(a: seq<char>)
    ensures AgeValid(a) <==> 1 <= |a| <= 3 && AllDigits(a) && 1 <= DecimalValue(a) <= 120
  {
    if 1 <= |a| <= 3 && AllDigits(a) {
      ParseIntAllDigits(a);
    }
  }

  lemma AgeAccepted()
    ensures AgeValid("007") && AgeValid("1") && AgeValid("120")
  {
    AgeValidIff("007");
    AgeValidIff("1");
    AgeValidIff("120");
  }

  lemma AgeRejected()
    ensures !AgeValid("") && !AgeValid("0") && !AgeValid("000") && !AgeValid("121")
    ensures !AgeValid("12a") && !AgeValid("1000")
  {
    AgeValidIff("0");
    AgeValidIff("000");
    AgeValidIff("121");
    assert !IsDigit("12a"[2]);
  }

  // ---------------------------------------------------------------------
  // checkEmail: /^[\w-\.]+@([\w-]+\.)+[\w-]{2,4}$/

  /** `([\w-]+\.)+`: one or more labels, each followed by a dot */
  predicate DottedLabels(s: seq<char>)
    decreases |s|
  {
    exists i | 1 <= i < |s| ::
      AllLabelChars(s[..i]) && s[i] == '.' && (i + 1 == |s| || DottedLabels(s[i + 1..]))
  }

  /** `[\w-]{2,4}` */
  predicate TopLevel(s: seq<char>) { 2 <= |s| <= 4 && AllLabelChars(s) }

  /**
   * `checkEmail`'s test: a local part `s[..at]`, the `@` at `at`, dotted
   * labels `s[at + 1..tld]` and a final label `s[tld..]`.
   */
  predicate EmailValid(s: seq<char>) {
    exists at, tld | 0 < at < |s| && at < tld < |s| ::
      AllLocalChars(s[..at]) && s[at] == '@' && DottedLabels(s[at + 1..tld]) && TopLevel(s[tld..])
  }

  /** A character found at exactly one index occurs once. */
  lemma {:induction false} CountOnce(c: char, s: seq<char>, at: nat)
    requires at < |s| && s[at] == c
    requires forall k | 0 <= k < |s| && k != at :: s[k] != c
    ensures Count(c, s) == 1
    decreases at
  {
    if at == 0 {
      CountAbsent(c, s[1..]);
    } else {
      CountOnce(c, s[1..], at - 1);
    }
  }

  lemma {:induction false} CountAbsent(c: char, s: seq<char>)
    requires forall i | 0 <= i < |s| :: s[i] != c
    ensures Count(c, s) == 0
  {
    if s != [] {
      CountAbsent(c, s[1..]);
    }
  }

  /** What `([\w-]+\.)+` matches: label characters and dots, ending in a dot. */
  lemma {:induction false} DottedLabelsShape(s: seq<char>)
    requires DottedLabels(s)
    ensures |s| >= 2 && s[|s| - 1] == '.'
    ensures forall k | 0 <= k < |s| :: IsLabelChar(s[k]) || s[k] == '.'
  {
    var i :| 1 <= i < |s| && AllLabelChars(s[..i]) && s[i] == '.' && (i + 1 == |s| || DottedLabels(s[i + 1..]));
    if i + 1 < |s| {
      var rest := s[i + 1..];
      DottedLabelsShape(rest);
      forall k | i + 1 <= k < |s| ensures IsLabelChar(s[k]) || s[k] == '.' {
        assert s[k] == rest[k - (i + 1)];
      }
    }
    forall k | 0 <= k < i ensures IsLabelChar(s[k]) {
      assert s[k] == s[..i][k];
    }
  }

  /** The three parts of an accepted address, as `EmailValid` splits it */
  lemma EmailParts(s: seq<char>) returns (at: nat, tld: nat)
    requires EmailValid(s)
    ensures 0 < at < tld - 1 && tld < |s|
    ensures s[at] == '@' && s[tld - 1] == '.'
    ensures forall k | 0 <= k < |s| && k != at :: s[k] != '@'
    ensures forall k | at < k < tld :: IsLabelChar(s[k]) || s[k] == '.'
    ensures TopLevel(s[tld..])
  {
    at, tld :| 0 < at < |s| && at < tld < |s| &&
      AllLocalChars(s[..at]) && s[at] == '@' && DottedLabels(s[at + 1..tld]) && TopLevel(s[tld..]);
    var domain := s[at + 1..tld];
    DottedLabelsShape(domain);
    forall k | at < k < tld ensures IsLabelChar(s[k]) || s[k] == '.' {
      assert s[k] == domain[k - at - 1];
    }
    forall k | 0 <= k < |s| && k != at ensures s[k] != '@' {
      if k < at {
        assert IsLocalChar(s[..at][k]);
      } else if k >= tld {
        assert IsLabelChar(s[tld..][k - tld]);
      }
    }
  }

  /**
   * Every address `checkEmail` accepts has exactly one `@`, a `.` after it,
   * and ends with 2 to 4 characters of `[\w-]` after its last `.`.
   */
  lemma EmailShape(s: seq<char>)
    requires EmailValid(s)
    ensures Count('@', s) == 1
    ensures exists at, d | 0 <= at < d < |s| :: s[at] == '@' && s[d] == '.'
    ensures exists tld | 0 < tld < |s| ::
              s[tld - 1] == '.' && 2 <= |s| - tld <= 4 && AllLabelChars(s[tld..])
  {
    var at, tld := EmailParts(s);
    CountOnce('@', s, at);
    assert s[at] == '@' && s[tld - 1] == '.';
  }

  /** The characters after the last `.` of an accepted address are its final 2 to 4 characters. */
  lemma EmailLastLabel(s: seq<char>, d: nat)
    requires EmailValid(s)
    requires d < |s| && s[d] == '.'
    requires forall k | d < k < |s| :: s[k] != '.'
    ensures 2 <= |s| - d - 1 <= 4
  {
    var at, tld := EmailParts(s);
    assert d >= tld - 1;
  }

  lemma EmailAccepted()
    ensures EmailValid("a@b.co")
  {
    var s := "a@b.co";
    assert DottedLabels(s[2..4]) by {
      assert AllLabelChars(s[2..4][..1]);
    }
    assert AllLocalChars(s[..1]) && TopLevel(s[4..]);
  }

  lemma EmailRejected()
    ensures !EmailValid("a@b") && !EmailValid("a.com") && !EmailValid("a@b.cdefg")
  {
    if EmailValid("a@b") {
      EmailShape("a@b");
    }
    if EmailValid("a.com") {
      EmailShape("a.com");
    }
    if EmailValid("a@b.cdefg") {
      EmailLastLabel("a@b.cdefg", 3);
    }
  }

  // ---------------------------------------------------------------------
  // checkPasswd: /^.{6,}$/

  /** `.{n,}` between the anchors: at least `n` characters, each matched by `.` */
  predicate DotsAtLeast(s: seq<char>, n: nat)
    decreases |s|
  {
    if s == [] then n == 0
    else !IsLineTerminator(s[0]) && DotsAtLeast(s[1..], if n == 0 then 0 else n - 1)
  }

  /** `checkPasswd`'s test */
  predicate PasswdValid(p: seq<char>) { DotsAtLeast(p, 6) }

  lemma {:induction false} DotsAtLeastIff(s: seq<char>, n: nat)
    ensures DotsAtLeast(s, n) <==> |s| >= n && NoLineTerminator(s)
    decreases |s|
  {
    if s != [] {
      DotsAtLeastIff(s[1..], if n == 0 then 0 else n - 1);
      if NoLineTerminator(s) {
        assert forall i | 0 <= i < |s[1..]| :: s[1..][i] == s[i + 1];
      }
      if !IsLineTerminator(s[0]) && NoLineTerminator(s[1..]) {
        forall i | 0 <= i < |s| ensures !IsLineTerminator(s[i]) {
          if i > 0 { assert s[i] == s[1..][i - 1]; }
        }
      }
    }
  }

  /** `checkPasswd` accepts exactly the strings of 6 or more characters without a line terminator. */
  lemma PasswdValidIff(p: seq<char>)
    ensures PasswdValid(p) <==> |p| >= 6 && NoLineTerminator(p)
  {
    DotsAtLeastIff(p, 6);
  }

  lemma PasswdExamples()
    ensures PasswdValid("secret") && PasswdValid("      ")
    ensures !PasswdValid("abc12") && !PasswdValid("abc\ndef") && !PasswdValid("")
  {
  }

  // ---------------------------------------------------------------------
  // validatePhoneNumber: /^\+?1?\d{10,10}$/

  /** `\d{10,10}` */
  predicate TenDigits(s: seq<char>) { |s| == 10 && AllDigits(s) }

  /** `1?\d{10,10}`: the optional `1` is either skipped or matched */
  predicate OptOneTenDigits(s: seq<char>) {
    TenDigits(s) || (|s| > 0 && s[0] == '1' && TenDigits(s[1..]))
  }

  /** `validatePhoneNumber`'s test: `\+?1?\d{10,10}` */
  predicate PhoneValid(p: seq<char>) {
    OptOneTenDigits(p) || (|p| > 0 && p[0] == '+' && OptOneTenDigits(p[1..]))
  }

  /**
   * The phone pattern accepts exactly ten digits preceded by one of the
   * prefixes "", "+", "1" and "+1": the `+` and the `1` are optional
   * independently of each other.
   */
  lemma PhoneValidIff(p: seq<char>)
    ensures PhoneValid(p) <==>
      exists prefix | prefix in ["", "+", "1", "+1"] ::
        |prefix| <= |p| && p[..|prefix|] == prefix && TenDigits(p[|prefix|..])
  {
  }

  /** Ten to twelve characters, so nine digits and twelve digits are rejected. */
  lemma PhoneLength(p: seq<char>)
    requires PhoneValid(p)
    ensures 10 <= |p| <= 12
    ensures |p| == 12 ==> p[..2] == "+1"
  {
  }

  /** An eleven-digit number is accepted exactly when it starts with `1`. */
  lemma PhoneElevenDigits(p: seq<char>)
    requires |p| == 11 && AllDigits(p)
    ensures PhoneValid(p) <==> p[0] == '1'
  {
  }

  /** A lone `+` before ten digits is accepted, without the country code 1. */
  lemma PhonePlusWithoutOne(d: seq<char>)
    requires TenDigits(d)
    ensures PhoneValid(['+'] + d)
  {
  }

  /**
   * The `"91" + phone` sent on registration is never itself a number the
   * phone validator accepts.
   */
  lemma PrefixedPhoneRejected(p: seq<char>)
    requires PhoneValid(p)
    ensures !PhoneValid("91" + p)
  {
  }
}
