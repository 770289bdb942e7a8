/** The registration-form checks of `render-deploy/public/script.js`:
    `validateRegistrationData`, `isValidEmail`, the password-strength meter
    and the length guard before asking the server whether a username is
    free. A missing form field is None. */
module Registration {
  import opened Wrappers
  import opened Text

  /** A character `[^\s@]` matches. */
  predicate Plain(c: char) {
    !IsJsSpace(c) && c != '@'
  }

  predicate AllPlain(s: string) {
    forall k :: 0 <= k < |s| ==> Plain(s[k])
  }

  /** `/^[^\s@]+@[^\s@]+\.[^\s@]+$/` matches `s` with these three runs. */
  ghost predicate MatchesAs(s: string, local: string, host: string, tld: string) {
    s == local + "@" + host + "." + tld
    && |local| > 0 && |host| > 0 && |tld| > 0
    && AllPlain(local) && AllPlain(host) && AllPlain(tld)
  }

  /** A `.` of `t` with at least one character on each side. */
  predicate HasInnerDot(t: string) {
    exists k :: 0 < k < |t| - 1 && t[k] == '.'
  }

  /** `isValidEmail(email)`: one `@` with something before it, and after
      it a part that has an inner dot, with no whitespace anywhere. */
  function IsValidEmail(s: string): bool {
    exists i :: 0 < i < |s| && s[i] == '@' && AllPlain(s[..i]) && AllPlain(s[i + 1..]) && HasInnerDot(s[i + 1..])
  }

  /** The check accepts exactly the strings the regular expression
      matches. */
  lemma IsValidEmailMatchesRegex(s: string)
    ensures IsValidEmail(s) <==> exists local, host, tld :: MatchesAs(s, local, host, tld)
  {
    if IsValidEmail(s) {
      var i :| 0 < i < |s| && s[i] == '@' && AllPlain(s[..i]) && AllPlain(s[i + 1..]) && HasInnerDot(s[i + 1..]);
      AcceptedMatches(s, i);
    }
    if exists local, host, tld :: MatchesAs(s, local, host, tld) {
      var local, host, tld :| MatchesAs(s, local, host, tld);
      MatchAccepted(s, local, host, tld);
    }
  }

  /** An accepted address splits at its `@` and its inner dot into the
      three runs of the expression. */
  lemma AcceptedMatches(s: string, i: int)
    requires 0 < i < |s| && s[i] == '@' && AllPlain(s[..i]) && AllPlain(s[i + 1..]) && HasInnerDot(s[i + 1..])
    ensures exists local, host, tld :: MatchesAs(s, local, host, tld)
  {
    var rest := s[i + 1..];
    var k :| 0 < k < |rest| - 1 && rest[k] == '.';
    var local, host, tld := s[..i], rest[..k], rest[k + 1..];
    assert rest == host + "." + tld;
    assert s == local + "@" + rest;
    assert forall m :: 0 <= m < |host| ==> host[m] == rest[m];
    assert forall m :: 0 <= m < |tld| ==> tld[m] == rest[k + 1 + m];
    assert MatchesAs(s, local, host, tld);
  }

  /** A match of the expression is accepted, split at the end of its first
      run. */
  lemma MatchAccepted(s: string, local: string, host: string, tld: string)
    requires MatchesAs(s, local, host, tld)
    ensures IsValidEmail(s)
  {
    var i := |local|;
    var rest := host + "." + tld;
    assert s == local + ("@" + rest);
    assert s[..i] == local;
    assert s[i + 1..] == rest;
    assert rest[|host|] == '.';
    assert forall m :: 0 <= m < |host| ==> rest[m] == host[m];
    assert forall m :: |host| < m < |rest| ==> rest[m] == tld[m - |host| - 1];
    assert AllPlain(rest);
    assert s[i] == '@';
    assert HasInnerDot(rest);
  }

  /** `!x || x.length < n`: missing, empty or too short. */
  predicate TooShort(x: Option<string>, n: nat) {
    x.None? || |x.value| < n
  }

  datatype RegistrationData = RegistrationData(username: Option<string>, email: Option<string>,
                                               password: Option<string>, confirmPassword: Option<string>)

  datatype ValidationError = ShortUsername | BadEmail | ShortPassword | PasswordMismatch

  /** `!data.email || !isValidEmail(data.email)`. */
  predicate BadEmailField(email: Option<string>) {
    email.None? || !IsValidEmail(email.value)
  }

  /** `validateRegistrationData(data)`: collects the failed checks in order;
      the data passes exactly when none fails. */
  method ValidateRegistrationData(data: RegistrationData) returns (r: Result<(), seq<ValidationError>>)
    ensures r.Success? <==>
      !TooShort(data.username, 3) && !BadEmailField(data.email)
      && !TooShort(data.password, 6) && data.password == data.confirmPassword
    ensures r.Failure? ==>
      |r.error| > 0
      && (ShortUsername in r.error <==> TooShort(data.username, 3))
      && (BadEmail in r.error <==> BadEmailField(data.email))
      && (ShortPassword in r.error <==> TooShort(data.password, 6))
      && (PasswordMismatch in r.error <==> data.password != data.confirmPassword)
  {
    var errors: seq<ValidationError> := [];
    if data.username.None? || |data.username.value| < 3 {
      errors := errors + [ShortUsername];
    }
    if data.email.None? || !IsValidEmail(data.email.value) {
      errors := errors + [BadEmail];
    }
    if data.password.None? || |data.password.value| < 6 {
      errors := errors + [ShortPassword];
    }
    if data.password != data.confirmPassword {
      errors := errors + [PasswordMismatch];
    }
    if |errors| > 0 {
      return Failure(errors);
    }
    return Success(());
  }

  predicate HasLower(p: string) {
    exists k :: 0 <= k < |p| && IsAsciiLower(p[k])
  }

  predicate HasUpper(p: string) {
    exists k :: 0 <= k < |p| && IsAsciiUpper(p[k])
  }

  predicate HasDigit(p: string) {
    exists k :: 0 <= k < |p| && IsAsciiDigit(p[k])
  }

  /** `/[^a-zA-Z0-9]/`. */
  predicate HasOther(p: string) {
    exists k :: 0 <= k < |p| && !IsAsciiLower(p[k]) && !IsAsciiUpper(p[k]) && !IsAsciiDigit(p[k])
  }

  datatype Strength = Weak | Medium | Strong

  function Points(b: bool): nat {
    if b then 1 else 0
  }

  /** The strength score and its label, as `checkPasswordStrength` computes
      them. */
  method CheckPasswordStrength(password: string) returns (strength: nat, level: Strength)
    ensures strength == Points(|password| >= 6) + Points(HasLower(password)) + Points(HasUpper(password))
                        + Points(HasDigit(password)) + Points(HasOther(password))
    ensures strength <= 5
    ensures level == Weak <==> strength < 2
    ensures level == Medium <==> 2 <= strength < 4
    ensures level == Strong <==> strength >= 4
  {
    strength := 0;
    if |password| >= 6 {
      strength := strength + 1;
    }
    if HasLower(password) {
      strength := strength + 1;
    }
    if HasUpper(password) {
      strength := strength + 1;
    }
    if HasDigit(password) {
      strength := strength + 1;
    }
    if HasOther(password) {
      strength := strength + 1;
    }
    if strength < 2 {
      level := Weak;
    } else if strength < 4 {
      level := Medium;
    } else {
      level := Strong;
    }
  }

  /** Every character falls in one of the four classes, so any non-empty
      password scores at least 1, and one of at least six characters at
      least 2: the meter never calls it weak. */
  lemma LongPasswordsAreNotWeak(password: string)
    ensures |password| > 0 ==> Points(HasLower(password)) + Points(HasUpper(password))
                               + Points(HasDigit(password)) + Points(HasOther(password)) >= 1
    ensures |password| >= 6 ==> Points(|password| >= 6) + Points(HasLower(password)) + Points(HasUpper(password))
                                + Points(HasDigit(password)) + Points(HasOther(password)) >= 2
  {
    if |password| > 0 {
      var c := password[0];
      if IsAsciiLower(c) {
        assert HasLower(password);
      } else if IsAsciiUpper(c) {
        assert HasUpper(password);
      } else if IsAsciiDigit(c) {
        assert HasDigit(password);
      } else {
        assert HasOther(password);
      }
    }
  }

  /** `checkUsernameAvailability`'s guard: the server is asked only about a
      username of at least three characters. */
  function QueriesUsername(username: Option<string>): (r: bool)
    ensures r ==> username.Some? && |username.value| >= 3
  {
    !(username.None? || |username.value| < 3)
  }

  /** The availability guard and the form check agree on which usernames
      are long enough. */
  lemma UsernameGuardsAgree(username: Option<string>)
    ensures QueriesUsername(username) <==> !TooShort(username, 3)
  {
  }
}
