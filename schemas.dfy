/** The request schemas of backend/src/shared/validators/schemas.ts, as
    predicates over the parsed JSON fields of a request body or query.

    A JSON number is a real; zod's e-mail and ISO date-time checks are
    regular expressions of the library and are parameters here. */
module Schemas {
  import opened Common

  /** One field of the input object as zod sees it. */
  datatype Field = Missing | Null | Text(s: string) | Number(n: real) | Other

  predicate IsWordChar(c: char)
  {
    'a' <= c <= 'z' || 'A' <= c <= 'Z' || '0' <= c <= '9' || c == '_'
  }

  /** A line terminator, which the regular expression `.` does not match. */
  predicate IsLineTerminator(c: char)
  {
    c == '\n' || c == '\r' || c == '\U{2028}' || c == '\U{2029}'
  }

  /** The text before the first line terminator: where `(?=.*X)` anchored at
      the start can look. */
  function FirstLine(s: string): (r: string)
    ensures |r| <= |s| && r == s[..|r|]
    ensures forall k :: 0 <= k < |r| ==> !IsLineTerminator(r[k])
    ensures |r| < |s| ==> IsLineTerminator(s[|r|])
    decreases |s|
  {
    if s == [] || IsLineTerminator(s[0]) then [] else [s[0]] + FirstLine(s[1..])
  }

  /** The username rule: 3 to 50 code units, all of `[a-zA-Z0-9_]`. */
  predicate ValidUsername(f: Field)
  {
    f.Text? && 3 <= Utf16Length(f.s) <= 50 && forall k | 0 <= k < |f.s| :: IsWordChar(f.s[k])
  }

  /** The sign-up password rule: at least 8 UTF-16 code units, and a
      lower-case letter, an upper-case letter and a digit before the first
      line break. */
  predicate StrongPassword(f: Field)
  {
    f.Text? && Utf16Length(f.s) >= 8 &&
    var line := FirstLine(f.s);
    (exists k | 0 <= k < |line| :: 'a' <= line[k] <= 'z') &&
    (exists k | 0 <= k < |line| :: 'A' <= line[k] <= 'Z') &&
    (exists k | 0 <= k < |line| :: '0' <= line[k] <= '9')
  }

  predicate ValidEmail(f: Field, isEmail: string -> bool)
  {
    f.Text? && isEmail(f.s)
  }

  /** `CreateUserSchema`. */
  predicate CreateUser(username: Field, email: Field, password: Field, isEmail: string -> bool)
  {
    ValidUsername(username) && ValidEmail(email, isEmail) && StrongPassword(password)
  }

  /** `LoginSchema`: any non-empty password. */
  predicate Login(email: Field, password: Field, isEmail: string -> bool)
  {
    ValidEmail(email, isEmail) && password.Text? && Utf16Length(password.s) >= 1
  }

  const MaxValue: real := 1000000000.0

  /** `CreateTransactionSchema`. */
  predicate CreateTransaction(kind: Field, value: Field, category: Field, investmentCategory: Field)
  {
    kind.Text? && (kind.s == "Credit" || kind.s == "Debit") &&
    value.Number? && value.n > 0.0 && value.n <= MaxValue &&
    category.Text? && Utf16Length(category.s) >= 1 &&
    (investmentCategory.Missing? || investmentCategory.Null? || investmentCategory.Text?)
  }

  predicate IsInteger(n: real)
  {
    n.Floor as real == n
  }

  /** An `.optional()` field: absent, or passing the rule. */
  predicate Optional(f: Field, rule: Field -> bool)
  {
    f.Missing? || rule(f)
  }

  /** `GetTransactionsQuerySchema`. */
  predicate TransactionsQuery(startDate: Field, endDate: Field, kind: Field, category: Field,
                              limit: Field, offset: Field, isDateTime: string -> bool)
  {
    Optional(startDate, (f: Field) => f.Text? && isDateTime(f.s)) &&
    Optional(endDate, (f: Field) => f.Text? && isDateTime(f.s)) &&
    Optional(kind, (f: Field) => f.Text? && (f.s == "Credit" || f.s == "Debit")) &&
    Optional(category, (f: Field) => f.Text?) &&
    Optional(limit, (f: Field) => f.Number? && IsInteger(f.n) && f.n > 0.0 && f.n <= 100.0) &&
    Optional(offset, (f: Field) => f.Number? && IsInteger(f.n) && f.n >= 0.0)
  }

  /** `UpdateAccountSchema`. */
  predicate UpdateAccount(accountType: Field)
  {
    accountType.Missing? ||
    (accountType.Text? && (accountType.s == "CHECKING" || accountType.s == "SAVINGS" || accountType.s == "INVESTMENT"))
  }

  // -----------------------------------------------------------------------
  // Properties
  // -----------------------------------------------------------------------

  /** Every e-mail and password a sign-up accepts, the login accepts too. */
  lemma SignupCredentialsLogIn(username: Field, email: Field, password: Field, isEmail: string -> bool)
    requires CreateUser(username, email, password, isEmail)
    ensures Login(email, password, isEmail)
  {
  }

  /** The username rule on examples: too short, a forbidden character, and
      an accepted one. */
  lemma UsernameExamples()
    ensures !ValidUsername(Text("ab"))
    ensures !ValidUsername(Text("a-b"))
    ensures ValidUsername(Text("a_B9"))
    ensures !ValidUsername(Null)
  {
    assert !IsWordChar("a-b"[1]);
  }

  /** The first line of a text is everything before its first line
      terminator. */
  lemma {:induction false} FirstLineOf(line: string, rest: string)
    requires forall k :: 0 <= k < |line| ==> !IsLineTerminator(line[k])
    requires rest == [] || IsLineTerminator(rest[0])
    ensures FirstLine(line + rest) == line
    decreases |line|
  {
    if line != [] {
      assert (line + rest)[1..] == line[1..] + rest;
      FirstLineOf(line[1..], rest);
    }
  }

  /** The password rule on an example: upper case, lower case and a digit
      in eight characters are enough. */
  lemma PasswordExamples()
    ensures StrongPassword(Text("Abcdefg1"))
  {
    var p := "Abcdefg1";
    FirstLineOf(p, []);
    assert p + [] == p;
    assert 'a' <= p[1] <= 'z' && 'A' <= p[0] <= 'Z' && '0' <= p[2 + 5] <= '9';
  }

  /** Fewer than eight code units are refused, whatever the characters. */
  lemma ShortPasswordRefused(p: string)
    requires Utf16Length(p) < 8
    ensures !StrongPassword(Text(p))
  {
  }

  /** Lengths are counted in UTF-16 code units: "Aa1" followed by `n >= 3`
      characters outside the Basic Multilingual Plane (emoji, say) is a
      strong password, although it has fewer than eight characters when
      `n < 5`. */
  lemma PasswordLengthInCodeUnits(c: char, n: nat)
    requires c as int > 0xFFFF && n >= 3
    ensures |"Aa1" + Repeat(c, n)| == 3 + n
    ensures StrongPassword(Text("Aa1" + Repeat(c, n)))
  {
    var p := "Aa1" + Repeat(c, n);
    Utf16LengthAstral(Repeat(c, n));
    Utf16LengthAppend("Aa1", Repeat(c, n));
    forall k | 0 <= k < |p|
      ensures !IsLineTerminator(p[k])
    {
      if k >= 3 {
        assert p[k] == c;
      }
    }
    FirstLineOf(p, []);
    assert p + [] == p;
    assert 'a' <= p[1] <= 'z' && 'A' <= p[0] <= 'Z' && '0' <= p[2] <= '9';
  }

  /** A valid username is plain ASCII, so its code units are its
      characters: 3 to 50 of them. */
  lemma UsernameLengthInCharacters(f: Field)
    requires ValidUsername(f)
    ensures 3 <= |f.s| <= 50
  {
  }

  /** Without an upper-case letter a password is refused, however long. */
  lemma PasswordNeedsUpperCase(p: string)
    requires forall k :: 0 <= k < |p| ==> !('A' <= p[k] <= 'Z')
    ensures !StrongPassword(Text(p))
  {
    var line := FirstLine(p);
    forall k | 0 <= k < |line|
      ensures !('A' <= line[k] <= 'Z')
    {
      assert line[k] == p[k];
    }
  }

  /** A digit after a line break does not count, because the lookaheads of
      the rule do not cross it: a first line without a digit fails the rule
      whatever follows the break. */
  lemma PasswordDigitAfterLineBreak(line: string, rest: string)
    requires forall k :: 0 <= k < |line| ==> !IsLineTerminator(line[k]) && !('0' <= line[k] <= '9')
    requires rest != [] && IsLineTerminator(rest[0])
    ensures !StrongPassword(Text(line + rest))
  {
    FirstLineOf(line, rest);
  }

  /** The transaction value bounds: strictly positive, at most one billion,
      fractions allowed. */
  lemma TransactionValueBounds(n: real)
    ensures CreateTransaction(Text("Credit"), Number(n), Text("Food"), Missing) <==> 0.0 < n <= MaxValue
    ensures CreateTransaction(Text("Debit"), Number(0.5), Text("Food"), Null)
    ensures !CreateTransaction(Text("credit"), Number(1.0), Text("Food"), Missing)
    ensures !CreateTransaction(Text("Debit"), Number(1.0), Text(""), Missing)
    ensures !CreateTransaction(Text("Debit"), Number(1.0), Text("Food"), Number(1.0))
  {
  }

  /** The page size must be a whole number from 1 to 100 and the offset a
      whole number from 0. */
  lemma QueryPaging(limit: real, offset: real, isDateTime: string -> bool)
    ensures TransactionsQuery(Missing, Missing, Missing, Missing, Number(limit), Number(offset), isDateTime) <==>
              IsInteger(limit) && 0.0 < limit <= 100.0 && IsInteger(offset) && offset >= 0.0
    ensures !TransactionsQuery(Missing, Missing, Missing, Missing, Number(2.5), Missing, isDateTime)
    ensures TransactionsQuery(Missing, Missing, Missing, Missing, Missing, Missing, isDateTime)
  {
    assert (2.5).Floor == 2;
  }

  /** The account type, if given, is one of the three names. */
  lemma AccountTypes()
    ensures UpdateAccount(Missing) && UpdateAccount(Text("SAVINGS"))
    ensures !UpdateAccount(Text("savings")) && !UpdateAccount(Null)
  {
  }
}
