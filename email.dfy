/**
 * The email check behind `z.string().email()`. The library's pattern is, in
 * words (case-insensitive): a local part of letters, digits and `_ ' + - .`
 * that does not start with `.` and ends in a letter, digit or `_ + -`; one `@`;
 * then one or more labels, each a letter or digit followed by letters, digits
 * or `-`, each followed by `.`; then a top-level part of at least two letters;
 * and no `..` anywhere.
 */
module Email {

  predicate IsLetter(c: char) {
    'a' <= c <= 'z' || 'A' <= c <= 'Z'
  }

  predicate IsAlnum(c: char) {
    IsLetter(c) || '0' <= c <= '9'
  }

  predicate IsLocalChar(c: char) {
    IsAlnum(c) || c == '_' || c == '\'' || c == '+' || c == '-' || c == '.'
  }

  predicate IsLocalEnd(c: char) {
    IsAlnum(c) || c == '_' || c == '+' || c == '-'
  }

  /** The index of the first `c` in `s`, or `|s|` when there is none. */
  function IndexOf(s: string, c: char): (k: nat)
    ensures k <= |s|
    ensures k < |s| ==> s[k] == c
    ensures forall i :: 0 <= i < k ==> s[i] != c
  {
    if s == [] then 0 else if s[0] == c then 0 else 1 + IndexOf(s[1..], c)
  }

  predicate HasDoubleDot(s: string) {
    exists i :: 0 <= i < |s| - 1 && s[i] == '.' && s[i + 1] == '.'
  }

  predicate IsLocalPart(l: string) {
    && |l| >= 1
    && l[0] != '.'
    && (forall i :: 0 <= i < |l| ==> IsLocalChar(l[i]))
    && IsLocalEnd(l[|l| - 1])
  }

  predicate IsLabel(s: string) {
    && |s| >= 1
    && IsAlnum(s[0])
    && forall i :: 1 <= i < |s| ==> IsAlnum(s[i]) || s[i] == '-'
  }

  predicate IsTopLevel(s: string) {
    |s| >= 2 && forall i :: 0 <= i < |s| ==> IsLetter(s[i])
  }

  /** `([A-Z0-9][A-Z0-9-]*\.)+[A-Z]{2,}`: labels cannot hold a dot, so each ends at the next dot. */
  predicate IsDomain(s: string)
    ensures IsDomain(s) ==> |s| >= 4
    decreases |s|
  {
    var k := IndexOf(s, '.');
    && k < |s|
    && IsLabel(s[..k])
    && (IsTopLevel(s[k + 1..]) || IsDomain(s[k + 1..]))
  }

  /** A valid address has a local part of at least one character before its first `@`, not starting with `.`, and at least `a.bc` after it. */
  predicate IsEmail(s: string)
    ensures IsEmail(s) ==> 1 <= IndexOf(s, '@') && IndexOf(s, '@') + 5 <= |s| && s[0] != '.'
  {
    var k := IndexOf(s, '@');
    && k < |s|
    && IsLocalPart(s[..k])
    && IsDomain(s[k + 1..])
    && !HasDoubleDot(s)
  }

  /** Finding `c` in `a + [c] + b` when `a` has no `c`. */
  lemma {:induction false} IndexOfFirst(a: string, c: char, b: string)
    requires forall i :: 0 <= i < |a| ==> a[i] != c
    ensures IndexOf(a + [c] + b, c) == |a|
  {
    if a != [] {
      assert (a + [c] + b)[1..] == a[1..] + [c] + b;
      IndexOfFirst(a[1..], c, b);
    }
  }

  /** Every `local@host.tld` with an alphanumeric local part and host and an alphabetic top level of two or more letters is accepted. */
  lemma SimpleAddress(local: string, host: string, top: string)
    requires |local| >= 1 && forall i :: 0 <= i < |local| ==> IsAlnum(local[i])
    requires |host| >= 1 && forall i :: 0 <= i < |host| ==> IsAlnum(host[i])
    requires IsTopLevel(top)
    ensures IsEmail(local + "@" + host + "." + top)
  {
    var domain := host + "." + top;
    var s := local + "@" + domain;
    assert s == local + "@" + host + "." + top;
    assert s == local + ['@'] + domain;
    IndexOfFirst(local, '@', domain);
    assert IndexOf(s, '@') == |local|;
    assert s[..|local|] == local;
    assert s[|local| + 1..] == domain;
    assert domain == host + ['.'] + top;
    IndexOfFirst(host, '.', top);
    assert domain[..|host|] == host;
    assert domain[|host| + 1..] == top;
    assert IsDomain(domain);
    forall i | 0 <= i < |s| - 1 && s[i] == '.'
      ensures s[i + 1] != '.'
    {
      if i == |local| + 1 + |host| {
        assert s[i + 1] == top[0];
      }
    }
  }

  /** An address without `@` is refused. */
  lemma RefusedWithoutAt(s: string)
    requires forall i :: 0 <= i < |s| ==> s[i] != '@'
    ensures !IsEmail(s)
  {
  }

  lemma AcceptedExampleJane()
    ensures IsEmail("jane@x.com")
  {
    var local := "jane";
    assert IsAlnum(local[0]) && IsAlnum(local[1]) && IsAlnum(local[2]) && IsAlnum(local[3]);
    SimpleAddress(local, "x", "com");
    assert local + "@" + "x" + "." + "com" == "jane@x.com";
  }

}
