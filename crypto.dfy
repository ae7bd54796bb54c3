/**
 * Stand-ins for bcrypt and jsonwebtoken. The rest of the model relies only on the facts proved here:
 * a password matches exactly the hash made from it, and a token verifies, unexpired and under the
 * key it was signed with, to exactly the claims it was signed with; nothing else verifies.
 * The bodies are deliberately simple; no cryptographic strength is modelled.
 */
module Crypto {
  import opened Wrappers

  // ---------------------------------------------------------------- bcrypt

  /** A stored `password_hash`: the cost factor and salt it was made with, and what it commits to. */
  datatype PasswordHash = Bcrypt(cost: nat, salt: string, commitment: string)

  /** `bcrypt.hash(password, cost)`; the random salt is a parameter. */
  function Hash(password: string, cost: nat, salt: string): (h: PasswordHash)
    ensures h.cost == cost && h.salt == salt
  {
    Bcrypt(cost, salt, password)
  }

  /** `bcrypt.compare(password, hash)`. */
  predicate Compare(password: string, hash: PasswordHash) {
    hash.commitment == password
  }

  /** A password matches a hash exactly when the hash was made from it, whatever the cost and salt. */
  lemma CompareHash(password: string, other: string, cost: nat, salt: string)
    ensures Compare(password, Hash(other, cost, salt)) <==> password == other
  {
  }

  // ---------------------------------------------------------------- decimal text of a user id

  predicate IsDigit(c: char) {
    '0' <= c <= '9'
  }

  function DigitChar(d: nat): (c: char)
    requires d < 10
    ensures IsDigit(c)
  {
    ['0', '1', '2', '3', '4', '5', '6', '7', '8', '9'][d]
  }

  function DigitValue(c: char): (d: nat)
    requires IsDigit(c)
    ensures d < 10 && DigitChar(d) == c
  {
    (c as int - '0' as int) as nat
  }

  /** Canonical decimal text: digits only, not empty, no leading zero unless it is "0". */
  predicate Canonical(s: string) {
    |s| > 0 && (forall i | 0 <= i < |s| :: IsDigit(s[i])) && (|s| > 1 ==> s[0] != '0')
  }

  /** The decimal text of `n`. */
  function Decimal(n: nat): (s: string)
    ensures Canonical(s)
    ensures n > 0 ==> s[0] != '0'
  {
    if n < 10 then [DigitChar(n)] else Decimal(n / 10) + [DigitChar(n % 10)]
  }

  /** The number a string of digits denotes. */
  function ValueOf(s: string): nat
    requires forall i | 0 <= i < |s| :: IsDigit(s[i])
  {
    if s == [] then 0 else ValueOf(s[..|s| - 1]) * 10 + DigitValue(s[|s| - 1])
  }

  lemma {:induction false} ValueOfDecimal(n: nat)
    ensures ValueOf(Decimal(n)) == n
  {
    if n >= 10 {
      var s := Decimal(n);
      assert s[..|s| - 1] == Decimal(n / 10);
      ValueOfDecimal(n / 10);
    }
  }

  lemma {:induction false} LeadingDigitPositive(s: string)
    requires forall i | 0 <= i < |s| :: IsDigit(s[i])
    requires |s| > 0 && s[0] != '0'
    ensures ValueOf(s) > 0
  {
    if |s| > 1 {
      LeadingDigitPositive(s[..|s| - 1]);
    }
  }

  lemma {:induction false} DecimalValueOf(s: string)
    requires Canonical(s)
    ensures Decimal(ValueOf(s)) == s
  {
    if |s| > 1 {
      var p, d := s[..|s| - 1], DigitValue(s[|s| - 1]);
      LeadingDigitPositive(p);
      DecimalValueOf(p);
      var v := ValueOf(s);
      assert v == ValueOf(p) * 10 + d;
      assert v / 10 == ValueOf(p) && v % 10 == d;
      assert s == p + [s[|s| - 1]];
    }
  }

  /** Decimal text back to a number; `None` for anything that is not canonical decimal text. */
  function ParseDecimal(s: string): (r: Option<nat>)
    ensures r.Some? <==> Canonical(s)
    ensures r.Some? ==> Decimal(r.value) == s
  {
    if Canonical(s) then DecimalValueOf(s); Some(ValueOf(s)) else None
  }

  lemma ParseDecimalRoundTrip(n: nat)
    ensures ParseDecimal(Decimal(n)) == Some(n)
  {
    ValueOfDecimal(n);
  }

  // ---------------------------------------------------------------- jsonwebtoken

  /** The payload `{ userId }` and the `expiresIn` option of `jwt.sign`. */
  datatype Claims = Claims(userId: nat, expiresIn: string)

  /** `jwt.sign({ userId }, key, { expiresIn })`: the user id as decimal text, the lifetime, the key. */
  function Sign(c: Claims, key: string): string {
    Decimal(c.userId) + "." + c.expiresIn + "." + key
  }

  /** Position of the first '.' in `s`. */
  function FirstDot(s: string): (r: Option<nat>)
    ensures r.Some? ==> r.value < |s| && s[r.value] == '.' && forall j | 0 <= j < r.value :: s[j] != '.'
    ensures r.None? ==> forall j | 0 <= j < |s| :: s[j] != '.'
  {
    if s == [] then None
    else if s[0] == '.' then Some(0)
    else match FirstDot(s[1..]) case None => None case Some(k) => Some(k + 1)
  }

  /**
   * `jwt.verify(token, key)`: `None` where jsonwebtoken throws (malformed token, wrong key,
   * token past its lifetime). Whether the lifetime has passed is the flag `expired`: no clock is modelled.
   */
  function Verify(token: string, key: string, expired: bool): Option<Claims> {
    match FirstDot(token)
    case None => None
    case Some(i) =>
      var rest, tail := token[i + 1..], "." + key;
      if ParseDecimal(token[..i]).None? || |rest| < |tail| || rest[|rest| - |tail|..] != tail || expired then None
      else Some(Claims(ParseDecimal(token[..i]).value, rest[..|rest| - |tail|]))
  }

  /** A signed token verifies, while unexpired and under its own key, to the claims it was signed with. */
  lemma {:induction false} VerifySign(c: Claims, key: string)
    ensures Verify(Sign(c, key), key, false) == Some(c)
    ensures Verify(Sign(c, key), key, true) == None
  {
    var t, d := Sign(c, key), Decimal(c.userId);
    assert forall j | 0 <= j < |d| :: t[j] == d[j];
    assert t[|d|] == '.';
    assert FirstDot(t) == Some(|d|);
    assert t[..|d|] == d;
    ParseDecimalRoundTrip(c.userId);
    var rest := t[|d| + 1..];
    assert rest == c.expiresIn + "." + key;
    assert rest[..|rest| - |key| - 1] == c.expiresIn;
  }

  /** Only signed tokens verify: a token that verifies is the signature of the claims it yields, under that key. */
  lemma VerifiedIsSigned(token: string, key: string, expired: bool)
    requires Verify(token, key, expired).Some?
    ensures !expired
    ensures token == Sign(Verify(token, key, expired).value, key)
  {
    var i := FirstDot(token).value;
    var rest, tail := token[i + 1..], "." + key;
    var c := Verify(token, key, expired).value;
    assert Decimal(c.userId) == token[..i];
    assert rest == rest[..|rest| - |tail|] + tail;
    assert token == token[..i] + "." + rest;
  }
}
