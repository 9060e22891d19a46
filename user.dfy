/**
 * The user record (app/models/user.rb): the membership-based access
 * predicates and the validations run before a user is saved.
 */
module UserModel {
  import opened Wrappers
  import opened Text
  import opened MembershipModel

  /**
   * A stored user. `password` stands for the bcrypt digest kept by
   * `has_secure_password`; hashing is not modelled, so authentication is
   * equality with it. `chatCoupons` is the nullable `chat_coupons` column.
   */
  datatype User = User(id: int, email: string, password: string, chatCoupons: Option<int>, membershipId: Option<int>)

  /**
   * `User#has_feature?`: false without a membership, false once the
   * membership has expired, otherwise list membership in the trimmed
   * comma-split feature list.
   */
  predicate UserHasFeature(m: Option<Membership>, feature: string, now: int)
    ensures UserHasFeature(m, feature, now) <==> m.Some? && Active(m.value, now) && HasFeature(m.value, feature)
  {
    if m.None? then false
    else if m.value.expiresAt < now then false
    else feature in MapTrim(RubySplit(m.value.features, ','))
  }

  /** `membership_valid?`: a membership is present and has not expired. */
  predicate MembershipValid(m: Option<Membership>, now: int) {
    m.Some? && m.value.expiresAt >= now
  }

  /** Any feature grant implies a valid membership. */
  lemma HasFeatureImpliesValid(m: Option<Membership>, feature: string, now: int)
    ensures UserHasFeature(m, feature, now) ==> MembershipValid(m, now)
  {
  }

  /**
   * The expiry instant itself still grants access; one tick later neither
   * `has_feature?` nor `membership_valid?` holds.
   */
  lemma ExpiryBoundary(m: Membership, feature: string)
    requires HasFeature(m, feature)
    ensures UserHasFeature(Some(m), feature, m.expiresAt) && MembershipValid(Some(m), m.expiresAt)
    ensures !UserHasFeature(Some(m), feature, m.expiresAt + 1) && !MembershipValid(Some(m), m.expiresAt + 1)
  {
  }

  /** A character allowed before the '@' by the mailto address grammar. */
  predicate LocalChar(c: char) {
    IsAsciiLetter(c) || IsDigit(c) || c in ".!#$%&'*+/=?^_`{|}~-"
  }

  predicate AlphaNum(c: char) {
    IsAsciiLetter(c) || IsDigit(c)
  }

  /** One domain label: 1 to 63 letters, digits and '-', starting and ending with a letter or digit. */
  predicate DomainLabel(l: string) {
    1 <= |l| <= 63 && AlphaNum(l[0]) && AlphaNum(l[|l| - 1])
    && forall i :: 0 <= i < |l| ==> AlphaNum(l[i]) || l[i] == '-'
  }

  /** The position of the first `c` in `s`, or |s| when there is none. */
  function IndexOf(s: string, c: char): (i: nat)
    ensures i <= |s| && (i < |s| ==> s[i] == c)
    ensures forall j :: 0 <= j < i ==> s[j] != c
  {
    if s == [] then 0 else if s[0] == c then 0 else 1 + IndexOf(s[1..], c)
  }

  /**
   * The whole-string email format used by the `email` validation (Ruby's
   * `URI::MailTo::EMAIL_REGEXP`): a non-empty local part of permitted
   * characters, one '@', then dot-separated domain labels.
   */
  predicate MailToEmail(s: string) {
    var at := IndexOf(s, '@');
    at < |s| && at > 0
    && (forall i :: 0 <= i < at ==> LocalChar(s[i]))
    && var labels := SplitAll(s[at + 1..], '.');
    forall k :: 0 <= k < |labels| ==> DomainLabel(labels[k])
  }

  /** A mailto-valid address contains no whitespace at all. */
  lemma MailToEmailHasNoSpace(s: string)
    requires MailToEmail(s)
    ensures forall i :: 0 <= i < |s| ==> !IsSpace(s[i])
  {
    var at := IndexOf(s, '@');
    var domain := s[at + 1..];
    var labels := SplitAll(domain, '.');
    JoinSplitAll(domain, '.');
    forall i | 0 <= i < |s|
      ensures !IsSpace(s[i])
    {
      if i > at {
        JoinKeepsLabelChars(labels, '.', i - at - 1);
        assert domain[i - at - 1] == s[i];
      }
    }
  }

  /** Every character of a join is the separator or a character of one of the fields. */
  lemma {:induction false} JoinKeepsLabelChars(labels: seq<string>, sep: char, i: int)
    requires |labels| >= 1 && 0 <= i < |Join(labels, sep)| && !IsSpace(sep)
    requires forall k :: 0 <= k < |labels| ==> DomainLabel(labels[k])
    ensures !IsSpace(Join(labels, sep)[i])
  {
    var l0 := labels[0];
    if |labels| == 1 {
      assert AlphaNum(l0[i]) || l0[i] == '-';
    } else {
      var rest := Join(labels[1..], sep);
      assert Join(labels, sep) == l0 + [sep] + rest;
      if i < |l0| {
        assert AlphaNum(l0[i]) || l0[i] == '-';
      } else if i > |l0| {
        JoinKeepsLabelChars(labels[1..], sep, i - |l0| - 1);
      }
    }
  }

  /** Maximum length `has_secure_password` accepts for a password. */
  const MAX_PASSWORD_LENGTH := 72

  /**
   * The full error messages `valid?` reports for a user: email presence,
   * uniqueness (`emailTaken` says another row already holds it) and format,
   * password presence on create, and the password length limit.
   */
  function UserErrors(email: string, password: Option<string>, emailTaken: bool, onCreate: bool): (errs: seq<string>)
    ensures errs == [] <==>
      !IsBlank(email) && !emailTaken && MailToEmail(email)
      && (onCreate ==> password.Some? && !IsBlank(password.value))
      && (password.Some? ==> |password.value| <= MAX_PASSWORD_LENGTH)
  {
    (if IsBlank(email) then ["Email can't be blank"] else [])
    + (if emailTaken then ["Email has already been taken"] else [])
    + (if MailToEmail(email) then [] else ["Email is invalid"])
    + (if onCreate && (password.None? || IsBlank(password.value)) then ["Password can't be blank"] else [])
    + (if password.Some? && |password.value| > MAX_PASSWORD_LENGTH then ["Password is too long (maximum is 72 characters)"] else [])
  }
}
