/** The reusable `EmailInput` component: an e-mail text field with a row of
    fixed domain buttons; tapping one keeps what was typed before the first
    `@` and appends `@domain`. */
module EmailInput {

  /** The domains offered as buttons, in display order. */
  const Domains: seq<string> := ["gmail.com", "outlook.com", "yahoo.com", "icloud.com", "hotmail.com"]

  /** `email.split("@")[0]`: the longest prefix of `email` holding no `@`,
      which is everything before the first `@`, or all of `email` when it
      has none. */
  function UserPart(email: string): (r: string)
    ensures |r| <= |email| && r == email[..|r|]
    ensures '@' !in r
    ensures |r| < |email| ==> email[|r|] == '@'
  {
    if email == [] || email[0] == '@' then [] else [email[0]] + UserPart(email[1..])
  }

  /** `handleSelectDomain(domain)`: the new contents of the e-mail field. It
      ends with `@domain`; what comes before is a prefix of the typed e-mail
      holding no `@` and stopping at the first `@` (or at the end). */
  function SelectDomain(email: string, domain: string): (r: string)
    ensures |r| > |domain| && r[|r| - |domain| - 1..] == "@" + domain
    ensures var k := |r| - |domain| - 1;
      k <= |email| && r[..k] == email[..k] && '@' !in r[..k] && (k < |email| ==> email[k] == '@')
  {
    UserPart(email) + "@" + domain
  }

  /** How many times `c` occurs in `s`. */
  function Count(s: string, c: char): (n: nat)
    ensures n <= |s|
    ensures n == 0 <==> c !in s
  {
    if s == [] then 0 else (if s[0] == c then 1 else 0) + Count(s[1..], c)
  }

  lemma {:induction false} CountConcat(a: string, b: string, c: char)
    ensures Count(a + b, c) == Count(a, c) + Count(b, c)
  {
    if a == [] {
      assert a + b == b;
    } else {
      assert (a + b)[1..] == a[1..] + b;
      CountConcat(a[1..], b, c);
    }
  }

  /** Any prefix that stops at the first `@` (or at the end) is the user part. */
  lemma {:induction false} UserPartUnique(email: string, k: nat)
    requires k <= |email| && '@' !in email[..k]
    requires k < |email| ==> email[k] == '@'
    ensures UserPart(email) == email[..k]
  {
    if k > 0 {
      assert email[0] == email[..k][0];
      assert email[1..][..k - 1] == email[1..k];
      assert forall j :: 0 <= j < k - 1 ==> email[1..k][j] == email[..k][j + 1];
      UserPartUnique(email[1..], k - 1);
    }
  }

  /** The result of selecting `domain` is the text before the first `@` of
      the e-mail (all of it when there is no `@`), then `@`, then `domain`. */
  lemma SelectDomainSpec(email: string, domain: string)
    ensures '@' !in email ==> SelectDomain(email, domain) == email + "@" + domain
    ensures forall k :: 0 <= k < |email| && email[k] == '@' && '@' !in email[..k] ==>
      SelectDomain(email, domain) == email[..k] + "@" + domain
  {
    if '@' !in email {
      UserPartUnique(email, |email|);
      assert email[..|email|] == email;
    }
    forall k | 0 <= k < |email| && email[k] == '@' && '@' !in email[..k]
      ensures SelectDomain(email, domain) == email[..k] + "@" + domain
    {
      UserPartUnique(email, k);
    }
  }

  /** The result ends with `@domain` and starts with the preserved user part. */
  lemma SelectDomainShape(email: string, domain: string)
    ensures var r := SelectDomain(email, domain);
      |r| == |UserPart(email)| + 1 + |domain| &&
      r[..|UserPart(email)|] == UserPart(email) && r[|r| - |domain| - 1..] == "@" + domain
  {
  }

  /** An empty field becomes `@domain`. */
  lemma SelectDomainOnEmpty(domain: string)
    ensures SelectDomain("", domain) == "@" + domain
  {
  }

  /** The user part of `u@x` is `u` when `u` has no `@`. */
  lemma UserPartOfJoined(u: string, x: string)
    requires '@' !in u
    ensures UserPart(u + "@" + x) == u
  {
    var e := u + "@" + x;
    assert e[..|u|] == u;
    UserPartUnique(e, |u|);
  }

  /** Selecting `d1` and then `d2` is the same as selecting `d2` directly;
      in particular selecting the same domain twice is idempotent. */
  lemma SelectDomainTwice(email: string, d1: string, d2: string)
    ensures SelectDomain(SelectDomain(email, d1), d2) == SelectDomain(email, d2)
    ensures SelectDomain(SelectDomain(email, d1), d1) == SelectDomain(email, d1)
  {
    UserPartOfJoined(UserPart(email), d1);
  }

  /** No offered domain contains an `@`. */
  lemma DomainsHaveNoAt()
    ensures forall d :: d in Domains ==> '@' !in d
  {
  }

  /** Selecting a domain free of `@` leaves exactly one `@` in the field. */
  lemma {:induction false} SelectDomainOneAt(email: string, domain: string)
    requires '@' !in domain
    ensures Count(SelectDomain(email, domain), '@') == 1
  {
    var u := UserPart(email);
    CountConcat(u + "@", domain, '@');
    CountConcat(u, "@", '@');
    assert Count("@", '@') == 1;
  }

  /** Every button of the screen leaves exactly one `@` in the field. */
  lemma OfferedDomainsGiveOneAt(email: string, domain: string)
    requires domain in Domains
    ensures Count(SelectDomain(email, domain), '@') == 1
  {
    DomainsHaveNoAt();
    SelectDomainOneAt(email, domain);
  }
}
