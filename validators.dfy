/**
 * The field validators (banking-api/utils/validators.js): four anchored
 * regular expressions of the shape `^(?=.*X)…[C]{min,max}$`, and the lookup
 * `patterns[field]?.test(value)`.
 */
module Validators {
  import opened Common
  import opened Text

  /** The character classes the four patterns use. */
  datatype CharClass =
    | Letter         // [A-Za-z]
    | Digit          // \d
    | LetterOrSpace  // [A-Za-z\s]
    | PasswordChar   // [A-Za-z\d@$!%*?&]

  predicate InClass(c: char, k: CharClass) {
    match k
    case Letter => IsAsciiLetter(c)
    case Digit => IsAsciiDigit(c)
    case LetterOrSpace => IsAsciiLetter(c) || IsSpace(c)
    case PasswordChar => IsAsciiLetter(c) || IsAsciiDigit(c) || c in "@$!%*?&"
  }

  /**
   * `^(?=.*L1)(?=.*L2)…[body]{min,max}$`: lookaheads that each want a
   * character of their class somewhere in the first line, then a whole-string
   * run of body characters whose length is between `min` and `max` (no upper
   * bound when `max` is absent).
   */
  datatype Pattern = Pattern(lookaheads: seq<CharClass>, body: CharClass, min: nat, max: Option<nat>)

  const FullNamePattern: Pattern := Pattern([], LetterOrSpace, 2, Some(50))
  const IdNumberPattern: Pattern := Pattern([], Digit, 13, Some(13))
  const AccountNumberPattern: Pattern := Pattern([], Digit, 10, Some(16))
  const PasswordPattern: Pattern := Pattern([Letter, Digit], PasswordChar, 8, None)

  /**
   * `(?=.*k)` at the start: `.*` skips characters other than line
   * terminators, then one character of `k` must follow.
   */
  function LookaheadScan(s: string, k: CharClass): (found: bool)
    decreases |s|
  {
    if s == [] then false
    else if InClass(s[0], k) then true
    else if IsLineTerminator(s[0]) then false
    else LookaheadScan(s[1..], k)
  }

  /** The number of leading characters of `s` that belong to `k`: how far `[k]*` gets. */
  function RunLength(s: string, k: CharClass): (n: nat)
    ensures n <= |s|
    decreases |s|
  {
    if s == [] || !InClass(s[0], k) then 0 else 1 + RunLength(s[1..], k)
  }

  /** All lookaheads of the list hold at the start of `s`. */
  function AllLookaheads(s: string, ks: seq<CharClass>): bool
    decreases |ks|
  {
    if ks == [] then true else LookaheadScan(s, ks[0]) && AllLookaheads(s, ks[1..])
  }

  /** `pattern.test(s)`: the lookaheads hold, the body run reaches the end of `s`, and its length is in range. */
  function Test(p: Pattern, s: string): bool {
    && AllLookaheads(s, p.lookaheads)
    && RunLength(s, p.body) == |s|
    && p.min <= |s|
    && (p.max.None? || |s| <= p.max.value)
  }

  /** Every character of `s` belongs to `k`. */
  predicate AllIn(s: string, k: CharClass) {
    forall i :: 0 <= i < |s| ==> InClass(s[i], k)
  }

  /** Some character of `s` belongs to `k`. */
  predicate SomeIn(s: string, k: CharClass) {
    exists i :: 0 <= i < |s| && InClass(s[i], k)
  }

  /** The run of `k` characters covers `s` exactly when every character belongs to `k`. */
  lemma {:induction false} RunCoversAll(s: string, k: CharClass)
    ensures RunLength(s, k) == |s| <==> AllIn(s, k)
  {
    if s != [] {
      RunCoversAll(s[1..], k);
      if InClass(s[0], k) && AllIn(s[1..], k) {
        forall i | 0 <= i < |s| ensures InClass(s[i], k) {
          if i > 0 {
            assert s[i] == s[1..][i - 1];
          }
        }
      }
      if AllIn(s, k) {
        forall i | 0 <= i < |s[1..]| ensures InClass(s[1..][i], k) {
          assert s[1..][i] == s[i + 1];
        }
      }
    }
  }

  /** No line terminator occurs among the first `i` characters of `s`. */
  predicate NoTerminatorBefore(s: string, i: nat)
    requires i <= |s|
  {
    forall j :: 0 <= j < i ==> !IsLineTerminator(s[j])
  }

  /** The scan finds a `k` character exactly when one occurs before the first line terminator. */
  lemma {:induction false} LookaheadMeaning(s: string, k: CharClass)
    ensures LookaheadScan(s, k) <==>
              exists i :: 0 <= i < |s| && InClass(s[i], k) && NoTerminatorBefore(s, i)
  {
    if s != [] && !InClass(s[0], k) && !IsLineTerminator(s[0]) {
      LookaheadMeaning(s[1..], k);
      if LookaheadScan(s[1..], k) {
        var i :| 0 <= i < |s[1..]| && InClass(s[1..][i], k) && NoTerminatorBefore(s[1..], i);
        assert InClass(s[i + 1], k);
        forall j | 0 <= j < i + 1 ensures !IsLineTerminator(s[j]) {
          if j > 0 {
            assert s[j] == s[1..][j - 1];
          }
        }
      }
      if exists i :: 0 <= i < |s| && InClass(s[i], k) && NoTerminatorBefore(s, i) {
        var i :| 0 <= i < |s| && InClass(s[i], k) && NoTerminatorBefore(s, i);
        assert i > 0;
        assert InClass(s[1..][i - 1], k);
        forall j | 0 <= j < i - 1 ensures !IsLineTerminator(s[1..][j]) {
          assert s[1..][j] == s[j + 1];
        }
      }
    } else if s != [] && InClass(s[0], k) {
      assert NoTerminatorBefore(s, 0);
    }
  }

  /** On a string without line terminators a lookahead only asks for some character of its class. */
  lemma {:induction false} LookaheadOnOneLine(s: string, k: CharClass)
    requires forall i :: 0 <= i < |s| ==> !IsLineTerminator(s[i])
    ensures LookaheadScan(s, k) <==> SomeIn(s, k)
  {
    LookaheadMeaning(s, k);
  }

  /** A full name is 2 to 50 characters, each an ASCII letter or white space. */
  lemma {:induction false} FullNameMeaning(s: string)
    ensures Test(FullNamePattern, s) <==> 2 <= |s| <= 50 && forall i :: 0 <= i < |s| ==> IsAsciiLetter(s[i]) || IsSpace(s[i])
  {
    RunCoversAll(s, LetterOrSpace);
  }

  /** An id number is exactly 13 ASCII digits. */
  lemma {:induction false} IdNumberMeaning(s: string)
    ensures Test(IdNumberPattern, s) <==> |s| == 13 && forall i :: 0 <= i < |s| ==> IsAsciiDigit(s[i])
  {
    RunCoversAll(s, Digit);
  }

  /** An account number is 10 to 16 ASCII digits. */
  lemma {:induction false} AccountNumberMeaning(s: string)
    ensures Test(AccountNumberPattern, s) <==> 10 <= |s| <= 16 && forall i :: 0 <= i < |s| ==> IsAsciiDigit(s[i])
  {
    RunCoversAll(s, Digit);
  }

  /** Password characters are never line terminators. */
  lemma {:induction false} PasswordCharsOnOneLine(s: string)
    requires AllIn(s, PasswordChar)
    ensures forall i :: 0 <= i < |s| ==> !IsLineTerminator(s[i])
  {
    forall i | 0 <= i < |s| ensures !IsLineTerminator(s[i]) {
      assert InClass(s[i], PasswordChar);
    }
  }

  /**
   * A password is at least 8 characters drawn from the letters, the digits and
   * `@$!%*?&`, with at least one letter and at least one digit.
   */
  lemma {:induction false} PasswordMeaning(s: string)
    ensures Test(PasswordPattern, s) <==>
              && |s| >= 8
              && AllIn(s, PasswordChar)
              && SomeIn(s, Letter)
              && SomeIn(s, Digit)
  {
    RunCoversAll(s, PasswordChar);
    assert PasswordPattern.lookaheads[1..] == [Digit];
    assert AllLookaheads(s, PasswordPattern.lookaheads) == (LookaheadScan(s, Letter) && LookaheadScan(s, Digit));
    if AllIn(s, PasswordChar) {
      PasswordCharsOnOneLine(s);
      LookaheadOnOneLine(s, Letter);
      LookaheadOnOneLine(s, Digit);
    }
  }

  /** A string of two spaces is a valid full name, since `\s` is in the class and nothing asks for a letter. */
  lemma {:induction false} BlankNameAccepted()
    ensures Test(FullNamePattern, "  ")
  {
    FullNameMeaning("  ");
  }

  /**
   * Anchoring: a character outside the body class, put before or after an
   * accepted value, makes it rejected.
   */
  lemma {:induction false} AnchoredBothEnds(p: Pattern, s: string, c: char)
    requires !InClass(c, p.body)
    ensures !Test(p, [c] + s) && !Test(p, s + [c])
  {
    RunCoversAll([c] + s, p.body);
    RunCoversAll(s + [c], p.body);
    assert ([c] + s)[0] == c;
    assert (s + [c])[|s|] == c;
  }

  /** The names that every object inherits from `Object.prototype`. */
  const InheritedNames: set<string> := {
    "constructor", "hasOwnProperty", "isPrototypeOf", "propertyIsEnumerable",
    "toLocaleString", "toString", "valueOf", "__proto__",
    "__defineGetter__", "__defineSetter__", "__lookupGetter__", "__lookupSetter__"
  }

  /** The outcome of `validateField`. */
  datatype FieldCheck =
    | Undefined        // no pattern for the field: `?.` short-circuits
    | Tested(ok: bool) // the pattern's answer
    | TypeError        // an inherited member was found, and it has no callable `test`

  /** `patterns[field]`: the four own keys of the object literal. */
  function PatternFor(field: string): Option<Pattern> {
    if field == "fullName" then Some(FullNamePattern)
    else if field == "idNumber" then Some(IdNumberPattern)
    else if field == "accountNumber" then Some(AccountNumberPattern)
    else if field == "password" then Some(PasswordPattern)
    else None
  }

  /**
   * The text `RegExp.prototype.test` examines: its argument converted to a
   * string, so an omitted or `undefined` value is the text "undefined".
   */
  function TestedText(value: Option<string>): (t: string)
    ensures value.Some? ==> t == value.value
    ensures value.None? ==> t == "undefined"
  {
    if value.Some? then value.value else "undefined"
  }

  /**
   * `validateField(field, value)`: a pattern's answer for the four fields;
   * `undefined` for a name the object does not have; a thrown `TypeError` for
   * an inherited name, whose value is not nullish but has no `test` method.
   */
  function ValidateField(field: string, value: Option<string>): (r: FieldCheck)
    ensures PatternFor(field).Some? ==> r == Tested(Test(PatternFor(field).value, TestedText(value)))
    ensures PatternFor(field).None? && field !in InheritedNames ==> r == Undefined
    ensures field in InheritedNames ==> r == TypeError
    ensures r.Tested? <==> field in {"fullName", "idNumber", "accountNumber", "password"}
  {
    var p := PatternFor(field);
    if p.Some? then Tested(Test(p.value, TestedText(value)))
    else if field in InheritedNames then TypeError
    else Undefined
  }

  /** No value passes the check of a field without a pattern. */
  lemma {:induction false} UnknownFieldNeverPasses(field: string, value: Option<string>)
    requires PatternFor(field).None?
    ensures ValidateField(field, value) != Tested(true)
  {
  }

  /** The text "undefined" is nine ASCII letters, so it matches the full-name pattern. */
  lemma {:induction false} UndefinedIsAName()
    ensures Test(FullNamePattern, "undefined")
  {
    var u := "undefined";
    assert forall i :: 0 <= i < |u| ==> IsAsciiLetter(u[i]);
    FullNameMeaning(u);
  }

  /** An omitted value passes as a full name. */
  lemma {:induction false} AbsentNameAccepted()
    ensures ValidateField("fullName", None) == Tested(true)
  {
    UndefinedIsAName();
    assert TestedText(None) == "undefined";
  }
}
