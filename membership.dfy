/**
 * The membership record (app/models/membership.rb): its comma-separated
 * feature list, expiry, and the validations run before it is saved.
 * Times are integers on one clock; `now` is passed in.
 */
module MembershipModel {
  import opened Wrappers
  import opened Text

  /** The feature name that unlocks chat (`FeatureNames::CHAT`). */
  const CHAT := "대화"

  /**
   * A stored membership. `couponCount` is nullable in the Ruby model; the
   * controllers read it as `coupon_count || 0`. `createdAt` and `updatedAt`
   * are the `t.timestamps` columns.
   */
  datatype Membership = Membership(id: int, name: string, features: string, expiresAt: int, couponCount: Option<int>,
                                   createdAt: int, updatedAt: int)

  /** `features_array`: split on ',' (trailing empty fields dropped), each element trimmed. */
  function FeaturesArray(features: string): seq<string> {
    MapTrim(RubySplit(features, ','))
  }

  /** Every listed feature is trimmed: none starts or ends with whitespace. */
  lemma FeaturesArrayTrimmed(features: string)
    ensures forall k :: 0 <= k < |FeaturesArray(features)| ==> Trimmed(FeaturesArray(features)[k])
  {
    var r := FeaturesArray(features);
    forall k | 0 <= k < |r|
      ensures Trimmed(r[k])
    {
      assert r[k] == Trim(RubySplit(features, ',')[k]);
    }
  }

  /** `Membership#has_feature?`: list membership, expiry not consulted. */
  predicate HasFeature(m: Membership, feature: string) {
    feature in FeaturesArray(m.features)
  }

  /** `active?`: not yet past `expires_at` (the expiry instant itself is still active). */
  predicate Active(m: Membership, now: int) {
    m.expiresAt >= now
  }

  /**
   * `features_array` cuts at each ',' and trims the pieces: "a, b, c" lists
   * a, b and c (the tests use "학습, 대화, 분석").
   */
  lemma FeaturesArrayTrims(a: string, b: string, c: string)
    requires Word(a) && Word(b) && Word(c)
    ensures FeaturesArray(a + ", " + b + ", " + c) == [a, b, c]
  {
    var fields := [a, " " + b, " " + c];
    SplitThree(a, b, c);
    assert DropTrailingEmpty(fields) == fields;
    MapTrimThree(a, " " + b, " " + c);
    TrimIdentity(a);
    TrimLeadingSpace(b);
    TrimLeadingSpace(c);
  }

  /** Trimming a three-element list trims each element in place. */
  lemma MapTrimThree(x: string, y: string, z: string)
    ensures MapTrim([x, y, z]) == [Trim(x), Trim(y), Trim(z)]
  {
    var r := MapTrim([x, y, z]);
    assert |r| == 3 && r[0] == Trim(x) && r[1] == Trim(y) && r[2] == Trim(z);
  }

  /** Cutting "a, b, c" at its commas gives `a`, " b" and " c". */
  lemma SplitThree(a: string, b: string, c: string)
    requires Word(a) && Word(b) && Word(c)
    ensures SplitAll(a + ", " + b + ", " + c, ',') == [a, " " + b, " " + c]
  {
    var b' := " " + b;
    var c' := " " + c;
    var tail := b' + [','] + c';
    assert ',' !in b' && ',' !in c';
    SplitAllNoSep(c', ',');
    SplitAllCons(b', ',', c');
    assert SplitAll(tail, ',') == [b', c'];
    SplitAllCons(a, ',', tail);
    assert a + [','] + tail == a + ", " + b + ", " + c;
  }

  /** A feature name without commas that starts and ends with a non-space character. */
  predicate Word(w: string) {
    w != [] && !IsSpace(w[0]) && !IsSpace(w[|w| - 1]) && ',' !in w
  }

  /** Trimming one leading space off a word. */
  lemma TrimLeadingSpace(w: string)
    requires w != [] && !IsSpace(w[0]) && !IsSpace(w[|w| - 1])
    ensures Trim(" " + w) == w
  {
    assert (" " + w)[1..] == w;
    assert TrimLeft(w) == w;
    assert TrimLeft(" " + w) == w;
    TrimIdentity(w);
  }

  /**
   * The `coupon_count` attribute as sent: left out (the record keeps the
   * column default), sent as null, or sent as a number.
   */
  datatype CountParam = Omitted | SentNull | Sent(n: int)

  /**
   * The attributes a new membership is built from; for the text and time
   * attributes `None` is an absent or nil value (both leave the attribute nil).
   */
  datatype MembershipParams = MembershipParams(name: Option<string>, features: Option<string>, expiresAt: Option<int>, couponCount: CountParam)

  predicate PresentText(s: Option<string>) {
    s.Some? && !IsBlank(s.value)
  }

  /**
   * The coupon count a membership is built with: an omitted `coupon_count`
   * takes the column default 0 (the column is NOT NULL DEFAULT 0); one sent
   * as null leaves the attribute nil, which validation refuses.
   */
  function CouponCountOrDefault(p: MembershipParams): int
    requires !p.couponCount.SentNull?
  {
    if p.couponCount.Sent? then p.couponCount.n else 0
  }

  /** The messages of the two `coupon_count` validations, presence and then numericality `>= 0`. */
  function CouponCountErrors(c: CountParam): (errs: seq<string>)
    ensures c.SentNull? ==> errs == ["Coupon count can't be blank", "Coupon count is not a number"]
    ensures c.Omitted? ==> errs == []
    ensures c.Sent? ==> (errs == [] <==> c.n >= 0)
  {
    match c
    case Omitted => []
    case SentNull => ["Coupon count can't be blank", "Coupon count is not a number"]
    case Sent(n) => if n >= 0 then [] else ["Coupon count must be greater than or equal to 0"]
  }

  /**
   * The full error messages of `valid?` in declaration order: presence of
   * name, features, expires_at, presence and `>= 0` of coupon_count, and
   * (on create) an expiry not in the past.
   */
  function MembershipErrors(p: MembershipParams, now: int, onCreate: bool): (errs: seq<string>)
    ensures errs == [] <==>
      PresentText(p.name) && PresentText(p.features) && p.expiresAt.Some?
      && !p.couponCount.SentNull? && CouponCountOrDefault(p) >= 0 && (onCreate ==> p.expiresAt.value >= now)
    ensures p.couponCount.SentNull? ==> "Coupon count can't be blank" in errs && "Coupon count is not a number" in errs
  {
    (if PresentText(p.name) then [] else ["Name can't be blank"])
    + (if PresentText(p.features) then [] else ["Features can't be blank"])
    + (if p.expiresAt.Some? then [] else ["Expires at can't be blank"])
    + CouponCountErrors(p.couponCount)
    + (if onCreate && p.expiresAt.Some? && p.expiresAt.value < now then ["Expires at 는 과거 날짜일 수 없습니다"] else [])
  }

  /** The record a valid parameter set is saved as. */
  function Build(id: int, p: MembershipParams, now: int): (m: Membership)
    requires MembershipErrors(p, now, true) == []
    ensures m.id == id && Active(m, now) && m.couponCount == Some(CouponCountOrDefault(p))
    ensures m.name == p.name.value && m.features == p.features.value && m.couponCount.value >= 0
    ensures m.createdAt == m.updatedAt == now
  {
    Membership(id, p.name.value, p.features.value, p.expiresAt.value, Some(CouponCountOrDefault(p)), now, now)
  }
}
