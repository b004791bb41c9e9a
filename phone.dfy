/**
 * The rewrite of the account's phone number before it is typed into the
 * login form: a national number starting with '8' or '9' becomes "+7"
 * followed by its last ten characters; anything else is typed as it is.
 */
module Phone {

  /** Python's `s[-n:]`: the last `n` characters, or all of `s` when it is shorter. */
  function Last(s: string, n: nat): (r: string)
    ensures |r| == (if |s| < n then |s| else n)
    ensures r == s[|s| - |r|..]
  {
    if |s| <= n then s else s[|s| - n..]
  }

  predicate StartsWithNational(phone: string) {
    |phone| > 0 && (phone[0] == '9' || phone[0] == '8')
  }

  /** The phone number as it is typed into the form. */
  function FormatPhone(phone: string): (r: string)
    ensures |r| > 0 && r[0] == '+' <==> |phone| > 0 && (phone[0] == '+' || StartsWithNational(phone))
  {
    if |phone| > 0 && phone[0] == '+' then phone
    else if StartsWithNational(phone) then "+7" + Last(phone, 10)
    else phone
  }

  /**
   * The three cases of the rewrite: an international number and any number
   * that does not start with '8' or '9' are kept; a national number becomes
   * "+7" and its last ten characters (all of them when it is shorter).
   */
  lemma FormatPhoneCases(phone: string)
    ensures !StartsWithNational(phone) ==> FormatPhone(phone) == phone
    ensures StartsWithNational(phone) ==>
      && |FormatPhone(phone)| == 2 + (if |phone| < 10 then |phone| else 10)
      && FormatPhone(phone)[..2] == "+7"
      && FormatPhone(phone)[2..] == phone[|phone| - |FormatPhone(phone)| + 2..]
  {
  }

  /** The rewrite is idempotent: a formatted number is formatted again to itself. */
  lemma FormatPhoneIdempotent(phone: string)
    ensures FormatPhone(FormatPhone(phone)) == FormatPhone(phone)
  {
  }

  /**
   * The national spellings of a ten-digit subscriber number ("8" + d, and d
   * itself when it starts with '9') are typed as the international "+7" + d,
   * which is itself kept.
   */
  lemma {:induction false} SpellingsAgree(d: string)
    requires |d| == 10
    ensures FormatPhone("8" + d) == "+7" + d
    ensures FormatPhone("+7" + d) == "+7" + d
    ensures d[0] == '9' ==> FormatPhone(d) == "+7" + d
  {
    assert ("8" + d)[1..] == d;
    assert ("8" + d)[0] == '8';
    assert ("+7" + d)[0] == '+';
  }

  /** A national spelling, "89991234567", and the international form it becomes. */
  lemma FormatPhoneExamples()
    ensures FormatPhone("89991234567") == "+79991234567"
    ensures FormatPhone("+79991234567") == "+79991234567"
  {
    SpellingsAgree("9991234567");
  }
}
