/**
 * The password policy shared by the registration page and the reset page, the regular expression
 * ^(?=.*[a-z])(?=.*[A-Z])(?=.*\d)(?=.*[@$!%*?&])[A-Za-z\d@$!%*?&]{5,}$ written as a character predicate.
 * The lookaheads' `.` cannot reach a line terminator here, since the body admits none, so each lookahead
 * is a plain "some character of this class occurs".
 */
module PasswordPolicy {

  /** The message both pages show when the policy rejects a password. */
  const PolicyMessage := "Password must have at least one uppercase letter, one lowercase letter, one digit, one special symbol, and be more than 4 characters."

  predicate IsLower(c: char) { 'a' <= c <= 'z' }
  predicate IsUpper(c: char) { 'A' <= c <= 'Z' }
  predicate IsDigit(c: char) { '0' <= c <= '9' }
  predicate IsSymbol(c: char) { c == '@' || c == '$' || c == '!' || c == '%' || c == '*' || c == '?' || c == '&' }

  /** The class [A-Za-z\d@$!%*?&] of the regular expression's body. */
  predicate IsAllowed(c: char) { IsLower(c) || IsUpper(c) || IsDigit(c) || IsSymbol(c) }

  /** Which character classes a string contains, and whether it holds only allowed characters. */
  datatype Classes = Classes(lower: bool, upper: bool, digit: bool, symbol: bool, onlyAllowed: bool)

  /** One pass over the string, collecting its character classes. */
  function Classify(s: string): (k: Classes)
  {
    if s == [] then Classes(false, false, false, false, true)
    else
      var k := Classify(s[1..]);
      Classes(k.lower || IsLower(s[0]), k.upper || IsUpper(s[0]), k.digit || IsDigit(s[0]),
              k.symbol || IsSymbol(s[0]), k.onlyAllowed && IsAllowed(s[0]))
  }

  /** The policy as the pages test it. */
  predicate Accepts(password: string)
  {
    var k := Classify(password);
    |password| >= 5 && k.lower && k.upper && k.digit && k.symbol && k.onlyAllowed
  }

  /** The policy stated directly: length at least 5, only allowed characters, one of each required class. */
  ghost predicate Satisfies(password: string)
  {
    && |password| >= 5
    && (forall i :: 0 <= i < |password| ==> IsAllowed(password[i]))
    && (exists i :: 0 <= i < |password| && IsLower(password[i]))
    && (exists i :: 0 <= i < |password| && IsUpper(password[i]))
    && (exists i :: 0 <= i < |password| && IsDigit(password[i]))
    && (exists i :: 0 <= i < |password| && IsSymbol(password[i]))
  }

  /** Each flag `Classify` collects means what its name says, for every string. */
  lemma {:induction false} ClassifyMeans(s: string)
    ensures Classify(s).lower <==> exists i :: 0 <= i < |s| && IsLower(s[i])
    ensures Classify(s).upper <==> exists i :: 0 <= i < |s| && IsUpper(s[i])
    ensures Classify(s).digit <==> exists i :: 0 <= i < |s| && IsDigit(s[i])
    ensures Classify(s).symbol <==> exists i :: 0 <= i < |s| && IsSymbol(s[i])
    ensures Classify(s).onlyAllowed <==> forall i :: 0 <= i < |s| ==> IsAllowed(s[i])
  {
    if s != [] {
      var t := s[1..];
      ClassifyMeans(t);
      assert forall i :: 1 <= i < |s| ==> s[i] == t[i - 1];
      assert forall i :: 0 <= i < |t| ==> t[i] == s[i + 1];
    }
  }

  /** The pages accept exactly the passwords that satisfy the policy. */
  lemma AcceptsIffSatisfies(password: string)
    ensures Accepts(password) <==> Satisfies(password)
  {
    ClassifyMeans(password);
  }

  /** "Abc12345" has no symbol, so the policy rejects it. */
  lemma RejectsWithoutSymbol()
    ensures !Accepts("Abc12345")
  {
  }

  /** Examples of accepted passwords: "P@ssw0rd!" and "P@ssw0rd1". */
  lemma AcceptsExamples()
    ensures Accepts("P@ssw0rd!") && Accepts("P@ssw0rd1")
  {
  }

  /** Four characters are too few even when every class occurs. */
  lemma RejectsShort()
    ensures !Accepts("aA1@")
  {
  }
}
