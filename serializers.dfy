/**
 * `MembershipSerializer.as_json` and `UserSerializer.as_json`: the JSON
 * shapes of a membership and a user in API responses.
 */
module Serializers {
  import opened Wrappers
  import opened Text
  import opened Json
  import opened MembershipModel
  import opened UserModel
  import Store

  /**
   * A membership as `{id, name, features, expires_at, coupon_count}` with the
   * trimmed feature list and a nil coupon count shown as 0; nil for no
   * membership.
   */
  function MembershipAsJson(m: Option<Membership>): (r: Json)
    ensures m.None? <==> r == Null
    ensures m.Some? ==> r.Obj? && r.fields.Keys == {"id", "name", "features", "expires_at", "coupon_count"}
    ensures m.Some? ==> Field(r, "id") == Int(m.value.id) && Field(r, "name") == Str(m.value.name)
    ensures m.Some? ==> Field(r, "expires_at") == Int(m.value.expiresAt)
    ensures m.Some? ==> Field(r, "features") == StrArr(FeaturesArray(m.value.features))
    ensures m.Some? ==> Field(r, "coupon_count") == Int(m.value.couponCount.GetOr(0))
  {
    match m
    case None => Null
    case Some(ms) =>
      Obj(map[
        "id" := Int(ms.id),
        "name" := Str(ms.name),
        "features" := StrArr(FeaturesArray(ms.features)),
        "expires_at" := Int(ms.expiresAt),
        "coupon_count" := Int(ms.couponCount.GetOr(0))])
  }

  /** Each serialized feature is a trimmed string: no item starts or ends with whitespace. */
  lemma SerializedFeaturesTrimmed(m: Membership)
    ensures var f := Field(MembershipAsJson(Some(m)), "features");
      f.Arr? && forall k :: 0 <= k < |f.items| ==> f.items[k].Str? && Trimmed(f.items[k].s)
  {
    var fs := FeaturesArray(m.features);
    assert Field(MembershipAsJson(Some(m)), "features") == StrArr(fs);
    FeaturesArrayTrimmed(m.features);
  }

  /** A user as `{id, email, chat_coupons, membership}`; nil for no user. */
  function UserAsJson(u: Option<User>, memberships: map<int, Membership>): (r: Json)
    ensures u.None? <==> r == Null
    ensures u.Some? ==> r.Obj? && r.fields.Keys == {"id", "email", "chat_coupons", "membership"}
    ensures u.Some? ==> Field(r, "id") == Int(u.value.id) && Field(r, "email") == Str(u.value.email)
    ensures u.Some? ==> Field(r, "chat_coupons") == (if u.value.chatCoupons.Some? then Int(u.value.chatCoupons.value) else Null)
    ensures u.Some? ==> Field(r, "membership") == MembershipAsJson(Store.MembershipOf(u.value, memberships))
    ensures u.Some? && u.value.membershipId.None? ==> Field(r, "membership") == Null
  {
    match u
    case None => Null
    case Some(user) =>
      Obj(map[
        "id" := Int(user.id),
        "email" := Str(user.email),
        "chat_coupons" := (if user.chatCoupons.Some? then Int(user.chatCoupons.value) else Null),
        "membership" := MembershipAsJson(Store.MembershipOf(user, memberships))])
  }
}
