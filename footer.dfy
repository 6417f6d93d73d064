/** The newsletter form of frontend/src/components/mvpblocks/footer-4col.tsx:
    the email test `/^\S+@\S+\.\S+$/` and the email, subscribed and error
    state that handleSubscribe updates. The subscription request itself is
    a placeholder in the component and does nothing. */
module Footer {
  import opened Common

  const InvalidEmail: string := "Please enter a valid email address."

  /** What the regular expression accepts, stated directly: no white space
      anywhere, and some '@' and some later '.' that split the text into
      three non-empty pieces. */
  ghost predicate EmailPattern(s: string)
  {
    && (forall k :: 0 <= k < |s| ==> !IsSpace(s[k]))
    && exists i, j | 0 < i && i + 1 < j < |s| - 1 :: s[i] == '@' && s[j] == '.'
  }

  /** The first index at or after k holding c. */
  function FirstFrom(s: string, c: char, k: nat): (r: Option<nat>)
    ensures r.Some? ==> k <= r.value < |s| && s[r.value] == c && forall m :: k <= m < r.value ==> s[m] != c
    ensures r.None? ==> forall m :: k <= m < |s| ==> s[m] != c
    decreases |s| - k
  {
    if k >= |s| then None else if s[k] == c then Some(k) else FirstFrom(s, c, k + 1)
  }

  /** The last index before k holding c. */
  function LastBefore(s: string, c: char, k: nat): (r: Option<nat>)
    requires k <= |s|
    ensures r.Some? ==> r.value < k && s[r.value] == c && forall m :: r.value < m < k ==> s[m] != c
    ensures r.None? ==> forall m :: 0 <= m < k ==> s[m] != c
  {
    if k == 0 then None else if s[k - 1] == c then Some(k - 1) else LastBefore(s, c, k - 1)
  }

  function NoSpace(s: string): (b: bool)
    ensures b <==> forall k :: 0 <= k < |s| ==> !IsSpace(s[k])
  {
    if s == [] then true else !IsSpace(s[0]) && NoSpace(s[1..])
  }

  /** The test as a scan: the first '@' after the first character and the
      last '.' before the last character must have a character between them. */
  function AcceptsEmail(s: string): bool
  {
    if |s| < 5 || !NoSpace(s) then false
    else
      match (FirstFrom(s, '@', 1), LastBefore(s, '.', |s| - 1))
      case (Some(i), Some(j)) => i + 1 < j
      case _ => false
  }

  /** The scan accepts exactly what the pattern describes. */
  lemma AcceptsEmailIff(s: string)
    ensures AcceptsEmail(s) <==> EmailPattern(s)
  {
    if EmailPattern(s) {
      var i, j :| 0 < i && i + 1 < j < |s| - 1 && s[i] == '@' && s[j] == '.';
      var a, b := FirstFrom(s, '@', 1), LastBefore(s, '.', |s| - 1);
      assert a.Some? && a.value <= i;
      assert b.Some? && b.value >= j;
    }
    if AcceptsEmail(s) {
      var a, b := FirstFrom(s, '@', 1), LastBefore(s, '.', |s| - 1);
      assert 0 < a.value && a.value + 1 < b.value < |s| - 1 && s[a.value] == '@' && s[b.value] == '.';
    }
  }

  /** Any three non-empty pieces without white space, joined as
      local@domain.tld, are accepted, even when the pieces themselves hold
      further '@' or '.' characters. */
  lemma PiecesAccepted(local: string, domain: string, tld: string)
    requires local != [] && domain != [] && tld != []
    requires NoSpace(local) && NoSpace(domain) && NoSpace(tld)
    ensures AcceptsEmail(local + "@" + domain + "." + tld)
  {
    var s := local + "@" + domain + "." + tld;
    var i, j := |local|, |local| + 1 + |domain|;
    assert s[i] == '@' && s[j] == '.';
    forall k | 0 <= k < |s| ensures !IsSpace(s[k]) {
      if k < i { assert s[k] == local[k]; }
      else if i < k < j { assert s[k] == domain[k - i - 1]; }
      else if k > j { assert s[k] == tld[k - j - 1]; }
    }
    assert EmailPattern(s);
    AcceptsEmailIff(s);
  }

  /** Without an '@' after the first character, or without a '.' before the
      last one, a text is rejected. */
  lemma MissingSeparatorRejected(s: string)
    ensures (forall k :: 1 <= k < |s| ==> s[k] != '@') ==> !AcceptsEmail(s)
    ensures (forall k :: 0 <= k < |s| - 1 ==> s[k] != '.') ==> !AcceptsEmail(s)
  {
    AcceptsEmailIff(s);
  }

  class Newsletter {
    var email: string
    var subscribed: bool
    var error: string

    constructor ()
      ensures email == "" && !subscribed && error == ""
    {
      email, subscribed, error := "", false, "";
    }

    method SetEmail(value: string)
      modifies this
      ensures email == value && subscribed == old(subscribed) && error == old(error)
    {
      email := value;
    }

    /** handleSubscribe: the error is cleared first; an invalid email sets
        the message and leaves `subscribed` alone; a valid one subscribes.
        `subscribed` never goes back to false. */
    method Subscribe()
      modifies this
      ensures email == old(email)
      ensures !EmailPattern(email) ==> error == InvalidEmail && subscribed == old(subscribed)
      ensures EmailPattern(email) ==> error == "" && subscribed
      ensures old(subscribed) ==> subscribed
    {
      AcceptsEmailIff(email);
      error := "";
      if !AcceptsEmail(email) {
        error := InvalidEmail;
        return;
      }
      subscribed := true;
    }
  }
}
