/** Form validation used by the route handlers of app.py: the presence test
    `not x` on request fields, the minimum password length, and the email
    shape test `re.match(r"[^@]+@[^@]+\.[^@]+", email)`. */
module Forms {
  import opened Wrappers

  /** A request field as returned by `request.form.get`: absent or a string. */
  type Field = Option<string>

  /** Python truthiness of a field: present and not the empty string. */
  predicate Filled(f: Field) {
    f.Some? && f.value != ""
  }

  /** The minimum password length checked by signup and by password reset. */
  const MinPasswordLength: nat := 8

  predicate LongEnough(password: string) {
    |password| >= MinPasswordLength
  }

  // ---------------------------------------------------------------------
  // Specification of the email pattern, as the regular expression reads.
  // ---------------------------------------------------------------------

  /** Every character of `s` is matched by the class `[^@]`. */
  predicate NoAt(s: string) {
    forall i :: 0 <= i < |s| ==> s[i] != '@'
  }

  /** `s` is matched by `[^@]+`. */
  predicate NonAtRun(s: string) {
    |s| > 0 && NoAt(s)
  }

  /** The prefix `s[..e]` is matched by `[^@]+@[^@]+\.[^@]+`, the `@` standing
      at index `a` and the escaped `.` at index `d`. */
  ghost predicate PatternMatchesPrefix(s: string, a: int, d: int, e: int) {
    && 0 < a && a < d && d < e && e <= |s|
    && NonAtRun(s[..a])
    && s[a] == '@'
    && NonAtRun(s[a + 1..d])
    && s[d] == '.'
    && NonAtRun(s[d + 1..e])
  }

  /** `re.match` succeeds: it anchors only at the start of the string, so some
      prefix must match the pattern and anything may follow it. */
  ghost predicate EmailShaped(s: string) {
    exists a, d, e :: PatternMatchesPrefix(s, a, d, e)
  }

  // ---------------------------------------------------------------------
  // The matcher: one left-to-right scan.
  // ---------------------------------------------------------------------

  /** Scans the domain run that began at `start`, now at index `i`; succeeds at
      the first `.` that ends a non-empty run and is followed by a non-`@`. */
  function ScanDomain(s: string, start: nat, i: nat): bool
    requires start <= i <= |s|
    decreases |s| - i
  {
    if i == |s| || s[i] == '@' then false
    else if s[i] == '.' && start < i && i + 1 < |s| && s[i + 1] != '@' then true
    else ScanDomain(s, start, i + 1)
  }

  /** Scans the local part, now at index `i`; at the first `@` the local part
      must be non-empty and the rest must hold a domain. */
  function ScanLocal(s: string, i: nat): bool
    requires i <= |s|
    decreases |s| - i
  {
    if i == |s| then false
    else if s[i] == '@' then 0 < i && ScanDomain(s, i + 1, i + 1)
    else ScanLocal(s, i + 1)
  }

  /** The email validator of `subscribe` and `signup`. */
  function IsEmailAddress(s: string): (ok: bool)
    ensures ok <==> EmailShaped(s)
  {
    ScanLocalCorrect(s);
    ScanLocal(s, 0)
  }

  // ---------------------------------------------------------------------
  // Correctness of the scan.
  // ---------------------------------------------------------------------

  /** The domain run from `start` to the dot at `d` is followed by a non-`@`. */
  ghost predicate DomainEndsAt(s: string, start: int, d: int) {
    0 <= start < d && d + 1 < |s| && NoAt(s[start..d]) && s[d] == '.' && s[d + 1] != '@'
  }

  lemma {:induction false} ScanDomainSound(s: string, start: nat, i: nat)
    requires start <= i <= |s|
    requires ScanDomain(s, start, i)
    requires NoAt(s[start..i])
    ensures exists d :: i <= d && DomainEndsAt(s, start, d)
    decreases |s| - i
  {
    if s[i] == '.' && start < i && i + 1 < |s| && s[i + 1] != '@' {
      assert DomainEndsAt(s, start, i);
    } else {
      assert s[start..i + 1] == s[start..i] + [s[i]];
      ScanDomainSound(s, start, i + 1);
    }
  }

  lemma {:induction false} ScanDomainComplete(s: string, start: nat, i: nat, d: int)
    requires start <= i <= d
    requires DomainEndsAt(s, start, d)
    ensures ScanDomain(s, start, i)
    decreases |s| - i
  {
    if i < d {
      assert s[i] == s[start..d][i - start];
    }
    if i < d && !(s[i] == '.' && start < i && i + 1 < |s| && s[i + 1] != '@') {
      ScanDomainComplete(s, start, i + 1, d);
    }
  }

  lemma {:induction false} ScanLocalSound(s: string, i: nat)
    requires i <= |s|
    requires ScanLocal(s, i)
    requires NoAt(s[..i])
    ensures EmailShaped(s)
    decreases |s| - i
  {
    if s[i] == '@' {
      assert s[i + 1..i + 1] == [];
      ScanDomainSound(s, i + 1, i + 1);
      var d :| i + 1 <= d && DomainEndsAt(s, i + 1, d);
      assert PatternMatchesPrefix(s, i, d, d + 2);
    } else {
      assert s[..i + 1] == s[..i] + [s[i]];
      ScanLocalSound(s, i + 1);
    }
  }

  lemma {:induction false} ScanLocalComplete(s: string, i: nat, a: int, d: int, e: int)
    requires i <= a
    requires PatternMatchesPrefix(s, a, d, e)
    ensures ScanLocal(s, i)
    decreases |s| - i
  {
    if i < a {
      assert s[i] == s[..a][i];
      ScanLocalComplete(s, i + 1, a, d, e);
    } else {
      assert s[d + 1] == s[d + 1..e][0];
      assert DomainEndsAt(s, a + 1, d);
      ScanDomainComplete(s, a + 1, a + 1, d);
    }
  }

  lemma ScanLocalCorrect(s: string)
    ensures ScanLocal(s, 0) <==> EmailShaped(s)
  {
    if ScanLocal(s, 0) {
      ScanLocalSound(s, 0);
    }
    if EmailShaped(s) {
      var a, d, e :| PatternMatchesPrefix(s, a, d, e);
      ScanLocalComplete(s, 0, a, d, e);
    }
  }

  // ---------------------------------------------------------------------
  // Consequences of matching only at the start.
  // ---------------------------------------------------------------------

  /** Anything may be appended to an accepted address. */
  lemma TrailingTextAccepted(s: string, t: string)
    requires EmailShaped(s)
    ensures EmailShaped(s + t)
  {
    var a, d, e :| PatternMatchesPrefix(s, a, d, e);
    var st := s + t;
    assert st[..a] == s[..a] && st[a + 1..d] == s[a + 1..d] && st[d + 1..e] == s[d + 1..e];
    assert PatternMatchesPrefix(st, a, d, e);
  }

  /** An accepted address has an `@` after a non-empty prefix without one. */
  lemma AcceptedHasAt(s: string)
    requires EmailShaped(s)
    ensures exists a :: 0 < a < |s| && s[a] == '@' && NoAt(s[..a])
  {
    var a, d, e :| PatternMatchesPrefix(s, a, d, e);
  }
}
