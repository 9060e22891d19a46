/**
 * The admin-facing user endpoints (api/v1/users_controller.rb): listing,
 * granting and revoking memberships with their chat coupons, membership
 * status, feature availability and the coupon-spending `start_chat`.
 */
module UsersController {
  import opened Wrappers
  import opened Text
  import opened Json
  import opened ApplicationController
  import opened MembershipModel
  import opened UserModel
  import opened MembershipPolicy
  import opened Store
  import opened Serializers

  const USER_NOT_FOUND := "User not found"
  const MEMBERSHIP_NOT_FOUND := "Membership not found"
  const ASSIGNED := "Membership assigned successfully"
  const PURCHASED := "Membership successfully purchased!"
  const REMOVED := "Membership removed successfully"

  /** A response together with the user table it leaves behind. */
  datatype Update = Update(response: Rendered, users: map<int, User>)

  /**
   * The chat coupons a membership grants on assignment or purchase: its own
   * `coupon_count` (nil read as 0), or the policy value when that is not
   * positive.
   */
  function PlanGrant(m: Membership, env: Env): (g: int)
    ensures m.couponCount.GetOr(0) > 0 ==> g == m.couponCount.value
    ensures m.couponCount.GetOr(0) <= 0 ==> g == CouponCountFor(Some(m.name), env)
  {
    var own := m.couponCount.GetOr(0);
    if own <= 0 then CouponCountFor(Some(m.name), env) else own
  }

  /**
   * The user row after assignment or purchase: the membership replaced, and
   * only when it lists the chat feature, the grant added to the balance
   * (nil read as 0). Expiry is not consulted.
   */
  function Granted(u: User, m: Membership, env: Env): (v: User)
    ensures v.id == u.id && v.email == u.email && v.password == u.password
    ensures v.membershipId == Some(m.id)
    ensures v.chatCoupons == if HasFeature(m, CHAT) then Some(u.chatCoupons.GetOr(0) + PlanGrant(m, env)) else u.chatCoupons
  {
    var w := u.(membershipId := Some(m.id));
    if HasFeature(m, CHAT) then w.(chatCoupons := Some(u.chatCoupons.GetOr(0) + PlanGrant(m, env))) else w
  }

  /**
   * `assign_membership` / `purchase_membership`: 404 for an unknown user or
   * membership, otherwise the granted row is saved and returned with
   * `success`, or 422 with the joined validation messages when the save fails.
   */
  function GrantMembership(users: map<int, User>, memberships: map<int, Membership>, userId: int, membershipId: Option<int>, env: Env, success: string): (up: Update)
    ensures userId !in users ==> up == Update(RenderError(USER_NOT_FOUND, Null, NOT_FOUND), users)
    ensures userId in users && (membershipId.None? || membershipId.value !in memberships) ==> up == Update(RenderError(MEMBERSHIP_NOT_FOUND, Null, NOT_FOUND), users)
    ensures up.response.status == OK ==> (userId in users && membershipId.Some? && membershipId.value in memberships
      && up.users == users[userId := Granted(users[userId], memberships[membershipId.value], env)])
    ensures up.response.status != OK ==> up.users == users
    ensures up.response.status in {OK, NOT_FOUND, UNPROCESSABLE_ENTITY}
  {
    if userId !in users then Update(RenderError(USER_NOT_FOUND, Null, NOT_FOUND), users)
    else if membershipId.None? || membershipId.value !in memberships then Update(RenderError(MEMBERSHIP_NOT_FOUND, Null, NOT_FOUND), users)
    else
      var v := Granted(users[userId], memberships[membershipId.value], env);
      var errs := SaveErrors(users, v);
      if errs == [] then
        Update(Rendered(OK, Obj(map["message" := Str(success), "user" := UserAsJson(Some(v), memberships)])), users[userId := v])
      else Update(RenderError(JoinWith(errs, ", "), Null, UNPROCESSABLE_ENTITY), users)
  }

  /**
   * The test vectors of the grant: with no environment overrides and a
   * membership whose own count is 0, a basic plan grants 0 and a premium
   * plan 30 (so a balance of 10 becomes 40, and nil becomes 30).
   */
  lemma GrantVectors(m: Membership)
    requires m.couponCount.GetOr(0) == 0
    ensures Contains(m.name, BASIC) ==> PlanGrant(m, NO_OVERRIDES) == 0
    ensures !Contains(m.name, BASIC) && Contains(m.name, PREMIUM) ==> PlanGrant(m, NO_OVERRIDES) == 30
  {
    DefaultPolicy(Some(m.name));
  }

  /** A successful grant keeps the tables consistent. */
  lemma GrantKeepsConsistent(users: map<int, User>, memberships: map<int, Membership>, userId: int, membershipId: Option<int>, env: Env, success: string)
    requires Consistent(users, memberships)
    ensures Consistent(GrantMembership(users, memberships, userId, membershipId, env, success).users, memberships)
  {
    var up := GrantMembership(users, memberships, userId, membershipId, env, success);
    if up.response.status == OK {
      var m := memberships[membershipId.value];
      assert m.id == membershipId.value;
      UpdateKeepsConsistent(users, memberships, Granted(users[userId], m, env));
    }
  }

  /** `assign_membership` on the tables. */
  method AssignMembership(db: Db, userId: int, membershipId: Option<int>, env: Env) returns (r: Rendered)
    requires db.Valid()
    modifies db
    ensures db.Valid() && db.memberships == old(db.memberships)
    ensures Update(r, db.users) == GrantMembership(old(db.users), db.memberships, userId, membershipId, env, ASSIGNED)
  {
    var up := GrantMembership(db.users, db.memberships, userId, membershipId, env, ASSIGNED);
    GrantKeepsConsistent(db.users, db.memberships, userId, membershipId, env, ASSIGNED);
    db.users := up.users;
    r := up.response;
  }

  /** `purchase_membership` on the tables: the same grant with its own success message. */
  method PurchaseMembership(db: Db, userId: int, membershipId: Option<int>, env: Env) returns (r: Rendered)
    requires db.Valid()
    modifies db
    ensures db.Valid() && db.memberships == old(db.memberships)
    ensures Update(r, db.users) == GrantMembership(old(db.users), db.memberships, userId, membershipId, env, PURCHASED)
  {
    var up := GrantMembership(db.users, db.memberships, userId, membershipId, env, PURCHASED);
    GrantKeepsConsistent(db.users, db.memberships, userId, membershipId, env, PURCHASED);
    db.users := up.users;
    r := up.response;
  }

  /**
   * The user record as Rails renders a model by default: the columns this
   * model keeps, the password digest included (timestamps are not modelled
   * for users).
   */
  function RawUserJson(u: User): Json {
    Obj(map[
      "id" := Int(u.id),
      "email" := Str(u.email),
      "password_digest" := Str(u.password),
      "chat_coupons" := (if u.chatCoupons.Some? then Int(u.chatCoupons.value) else Null),
      "membership_id" := (if u.membershipId.Some? then Int(u.membershipId.value) else Null)])
  }

  /**
   * `remove_membership`: 404 for an unknown user; otherwise no membership
   * and a balance of 0 whatever it was, saved (422 if the save fails).
   */
  function Remove(users: map<int, User>, userId: int): (up: Update)
    ensures userId !in users ==> up == Update(RenderError(USER_NOT_FOUND, Null, NOT_FOUND), users)
    ensures up.response.status == OK ==> (userId in users
      && up.users == users[userId := users[userId].(membershipId := None, chatCoupons := Some(0))])
    ensures up.response.status != OK ==> up.users == users
  {
    if userId !in users then Update(RenderError(USER_NOT_FOUND, Null, NOT_FOUND), users)
    else
      var v := users[userId].(membershipId := None, chatCoupons := Some(0));
      var errs := SaveErrors(users, v);
      if errs == [] then
        Update(Rendered(OK, Obj(map["message" := Str(REMOVED), "user" := RawUserJson(v)])), users[userId := v])
      else Update(RenderError(JoinWith(errs, ", "), Null, UNPROCESSABLE_ENTITY), users)
  }

  /** For a stored row with a valid email, removal always succeeds and zeroes the balance. */
  lemma RemoveZeroesBalance(users: map<int, User>, memberships: map<int, Membership>, userId: int)
    requires Consistent(users, memberships) && userId in users && MailToEmail(users[userId].email)
    ensures Remove(users, userId).response.status == OK
    ensures Remove(users, userId).users[userId].chatCoupons == Some(0)
    ensures Remove(users, userId).users[userId].membershipId.None?
  {
    var v := users[userId].(membershipId := None, chatCoupons := Some(0));
    StoredEmailNotTaken(users, memberships, v);
    MailToEmailHasNoSpace(v.email);
    assert !IsBlank(v.email) by {
      assert !IsSpace(v.email[0]);
    }
  }

  /**
   * For a stored row with a valid email and a plan that exists, assignment
   * and purchase always succeed: the answer is 200 with the given message,
   * and the row is the granted one.
   */
  lemma GrantSucceeds(users: map<int, User>, memberships: map<int, Membership>, userId: int, membershipId: int, env: Env, success: string)
    requires Consistent(users, memberships) && userId in users && MailToEmail(users[userId].email) && membershipId in memberships
    ensures var up := GrantMembership(users, memberships, userId, Some(membershipId), env, success);
      up.response.status == OK && Field(up.response.body, "message") == Str(success)
      && up.users == users[userId := Granted(users[userId], memberships[membershipId], env)]
  {
    var v := Granted(users[userId], memberships[membershipId], env);
    StoredEmailNotTaken(users, memberships, v);
    MailToEmailHasNoSpace(v.email);
    assert !IsBlank(v.email) by {
      assert !IsSpace(v.email[0]);
    }
  }

  /**
   * For a stored row with a valid email, the chat feature granted and a
   * positive balance, `start_chat` always succeeds: 200, exactly one
   * coupon spent, and the new balance reported.
   */
  lemma StartChatSucceeds(users: map<int, User>, memberships: map<int, Membership>, userId: int, now: int)
    requires Consistent(users, memberships) && userId in users && MailToEmail(users[userId].email)
    requires UserHasFeature(MembershipOf(users[userId], memberships), CHAT, now) && users[userId].chatCoupons.GetOr(0) > 0
    ensures var up := StartChat(users, memberships, userId, now);
      up.response.status == OK
      && up.users[userId].chatCoupons == Some(users[userId].chatCoupons.value - 1)
      && Field(up.response.body, "remaining_chat_coupons") == Int(users[userId].chatCoupons.value - 1)
  {
    var u := users[userId];
    var v := u.(chatCoupons := Some(u.chatCoupons.value - 1));
    StoredEmailNotTaken(users, memberships, v);
    MailToEmailHasNoSpace(v.email);
    assert !IsBlank(v.email) by {
      assert !IsSpace(v.email[0]);
    }
  }

  /** `remove_membership` on the tables. */
  method RemoveMembership(db: Db, userId: int) returns (r: Rendered)
    requires db.Valid()
    modifies db
    ensures db.Valid() && db.memberships == old(db.memberships)
    ensures Update(r, db.users) == Remove(old(db.users), userId)
  {
    var up := Remove(db.users, userId);
    if up.response.status == OK {
      UpdateKeepsConsistent(db.users, db.memberships, up.users[userId]);
    }
    db.users := up.users;
    r := up.response;
  }

  /**
   * `membership_status`: unavailable without a membership, expired once
   * `expires_at` is before `now`, otherwise available with the name, the
   * comma-split features (not trimmed) and the expiry.
   */
  function MembershipStatus(users: map<int, User>, memberships: map<int, Membership>, userId: int, now: int): (r: Rendered)
    ensures userId !in users ==> r == RenderError(USER_NOT_FOUND, Null, NOT_FOUND)
    ensures userId in users ==> r.status == OK
    ensures userId in users ==> (Field(r.body, "status") == Str("available") <==> MembershipValid(MembershipOf(users[userId], memberships), now))
  {
    if userId !in users then RenderError(USER_NOT_FOUND, Null, NOT_FOUND)
    else
      match MembershipOf(users[userId], memberships)
      case None => Rendered(OK, Obj(map["status" := Str("unavailable"), "reason" := Str("No membership assigned")]))
      case Some(m) =>
        if m.expiresAt < now then Rendered(OK, Obj(map["status" := Str("expired"), "reason" := Str("Membership has expired")]))
        else Rendered(OK, Obj(map["status" := Str("available"), "membership" := Obj(map[
          "name" := Str(m.name),
          "features" := StrArr(RubySplit(m.features, ',')),
          "expires_at" := Int(m.expiresAt)])]))
  }

  const CHAT_COUPON_REASON := "No chat coupons available"

  /** The outcomes `feature_available` distinguishes. */
  datatype Availability =
    | NoUser
    | NoMembership
    | Expired
    | NoFeatureGiven
    | NotIncluded
    | NoCoupons(remaining: int)
    | ChatAvailable(remaining: int)
    | FeatureAvailableNow

  /** The outcomes that report the feature as usable. */
  predicate Usable(a: Availability) {
    a.ChatAvailable? || a.FeatureAvailableNow?
  }

  /**
   * The decision of `feature_available`: unknown user, no membership,
   * expired, blank feature, feature not in the trimmed list, and for the
   * chat feature the balance (`to_i`, so nil is 0).
   */
  function Decide(users: map<int, User>, memberships: map<int, Membership>, userId: int, feature: Option<string>, now: int): (a: Availability)
    ensures a.NoUser? <==> userId !in users
    ensures userId in users && MembershipOf(users[userId], memberships).Some? && MembershipOf(users[userId], memberships).value.expiresAt < now ==> a.Expired?
    ensures userId in users && MembershipValid(MembershipOf(users[userId], memberships), now) && (feature.None? || IsBlank(feature.value)) ==> a.NoFeatureGiven?
    ensures a.ChatAvailable? || a.NoCoupons? ==> feature == Some(CHAT) && a.remaining == users[userId].chatCoupons.GetOr(0)
  {
    if userId !in users then NoUser
    else
      var u := users[userId];
      match MembershipOf(u, memberships)
      case None => NoMembership
      case Some(m) =>
        if m.expiresAt < now then Expired
        else if feature.None? || IsBlank(feature.value) then NoFeatureGiven
        else if feature.value !in MapTrim(RubySplit(m.features, ',')) then NotIncluded
        else if feature.value == CHAT then
          var remaining := u.chatCoupons.GetOr(0);
          if remaining <= 0 then NoCoupons(remaining) else ChatAvailable(remaining)
        else FeatureAvailableNow
  }

  /**
   * A non-blank feature is usable exactly when the user model grants it
   * and, for chat, the balance is positive.
   */
  lemma AvailabilityIff(users: map<int, User>, memberships: map<int, Membership>, userId: int, f: string, now: int)
    requires userId in users && !IsBlank(f)
    ensures Usable(Decide(users, memberships, userId, Some(f), now))
      <==> UserHasFeature(MembershipOf(users[userId], memberships), f, now) && (f == CHAT ==> users[userId].chatCoupons.GetOr(0) > 0)
  {
  }

  /** The JSON body for each outcome. */
  function AvailabilityJson(a: Availability, feature: Option<string>): (j: Json)
    ensures Field(j, "status") == Str("available") <==> Usable(a)
  {
    var f := Str(feature.GetOr(""));
    match a
    case NoUser => Obj(map["status" := Str("unavailable"), "reason" := Str(USER_NOT_FOUND)])
    case NoMembership => Obj(map["status" := Str("unavailable"), "reason" := Str("No membership assigned")])
    case Expired => Obj(map["status" := Str("expired"), "reason" := Str("Membership has expired")])
    case NoFeatureGiven => Obj(map["status" := Str("invalid"), "reason" := Str("No feature specified")])
    case NotIncluded => Obj(map["status" := Str("unavailable"), "reason" := Str("Feature not included in membership")])
    case NoCoupons(n) => Obj(map["status" := Str("unavailable"), "reason" := Str(CHAT_COUPON_REASON), "feature" := f, "remaining_chat_coupons" := Int(n)])
    case ChatAvailable(n) => Obj(map["status" := Str("available"), "feature" := f, "remaining_chat_coupons" := Int(n)])
    case FeatureAvailableNow => Obj(map["status" := Str("available"), "feature" := f])
  }

  /** `feature_available`: always 200, the outcome in the body. */
  function FeatureAvailable(users: map<int, User>, memberships: map<int, Membership>, userId: int, feature: Option<string>, now: int): (r: Rendered)
    ensures r.status == OK
    ensures Field(r.body, "status") == Str("available") <==> Usable(Decide(users, memberships, userId, feature, now))
  {
    Rendered(OK, AvailabilityJson(Decide(users, memberships, userId, feature, now), feature))
  }

  /**
   * `start_chat`: 404 unknown user; 403 without a membership, when expired,
   * or without the chat feature; 402 when the balance is nil or not
   * positive; otherwise one coupon is spent and saved.
   */
  function StartChat(users: map<int, User>, memberships: map<int, Membership>, userId: int, now: int): (up: Update)
    ensures userId !in users ==> up == Update(RenderError(USER_NOT_FOUND, Null, NOT_FOUND), users)
    ensures userId in users && !UserHasFeature(MembershipOf(users[userId], memberships), CHAT, now) ==> up.response.status == FORBIDDEN && up.users == users
    ensures userId in users && UserHasFeature(MembershipOf(users[userId], memberships), CHAT, now) && users[userId].chatCoupons.GetOr(0) <= 0
      ==> up == Update(RenderError("No chat coupons available", Null, PAYMENT_REQUIRED), users)
    ensures up.response.status == OK ==> (userId in users && users[userId].chatCoupons.Some? && users[userId].chatCoupons.value > 0
      && up.users == users[userId := users[userId].(chatCoupons := Some(users[userId].chatCoupons.value - 1))]
      && up.users[userId].chatCoupons.value >= 0)
    ensures up.response.status != OK ==> up.users == users
  {
    if userId !in users then Update(RenderError(USER_NOT_FOUND, Null, NOT_FOUND), users)
    else
      var u := users[userId];
      match MembershipOf(u, memberships)
      case None => Update(RenderError("No membership assigned", Null, FORBIDDEN), users)
      case Some(m) =>
        if m.expiresAt < now then Update(RenderError("Membership has expired", Null, FORBIDDEN), users)
        else if CHAT !in MapTrim(RubySplit(m.features, ',')) then Update(RenderError("Membership does not include chat feature", Null, FORBIDDEN), users)
        else if u.chatCoupons.None? || u.chatCoupons.value <= 0 then Update(RenderError("No chat coupons available", Null, PAYMENT_REQUIRED), users)
        else
          var v := u.(chatCoupons := Some(u.chatCoupons.value - 1));
          var errs := SaveErrors(users, v);
          if errs == [] then
            Update(Rendered(OK, Obj(map["message" := Str("Chat session started"), "remaining_chat_coupons" := Int(v.chatCoupons.value)])), users[userId := v])
          else Update(RenderError(JoinWith(errs, ", "), Null, UNPROCESSABLE_ENTITY), users)
  }

  /** `start_chat` on the tables. */
  method StartChatSession(db: Db, userId: int, now: int) returns (r: Rendered)
    requires db.Valid()
    modifies db
    ensures db.Valid() && db.memberships == old(db.memberships)
    ensures Update(r, db.users) == StartChat(old(db.users), db.memberships, userId, now)
  {
    var up := StartChat(db.users, db.memberships, userId, now);
    if up.response.status == OK {
      UpdateKeepsConsistent(db.users, db.memberships, up.users[userId]);
    }
    db.users := up.users;
    r := up.response;
  }

  /** One row of `index`: the membership with its raw features string, or nil. */
  function IndexRow(u: User, memberships: map<int, Membership>): (j: Json)
    ensures Field(j, "id") == Int(u.id) && Field(j, "email") == Str(u.email)
    ensures Field(j, "membership") == Null <==> MembershipOf(u, memberships).None?
    ensures MembershipOf(u, memberships).Some? ==> Field(Field(j, "membership"), "features") == Str(MembershipOf(u, memberships).value.features)
  {
    var m := MembershipOf(u, memberships);
    Obj(map[
      "id" := Int(u.id),
      "email" := Str(u.email),
      "chat_coupons" := (if u.chatCoupons.Some? then Int(u.chatCoupons.value) else Null),
      "membership" := (if m.None? then Null else Obj(map[
        "id" := Int(m.value.id),
        "name" := Str(m.value.name),
        "features" := Str(m.value.features),
        "expires_at" := Int(m.value.expiresAt)]))])
  }

  /**
   * `index`: one row per user, in the order the table yields them (`order`
   * lists every user id once; `User.all` fixes no order).
   */
  function Index(users: map<int, User>, memberships: map<int, Membership>, order: seq<int>): (r: Rendered)
    requires ListsOnce(order, users.Keys)
    ensures r.status == OK && r.body.Arr? && |r.body.items| == |order| == |users|
    ensures forall k :: 0 <= k < |order| ==> r.body.items[k] == IndexRow(users[order[k]], memberships)
  {
    ListsOnceLength(order, users.Keys);
    Rendered(OK, Arr(IndexRows(users, memberships, order)))
  }

  function IndexRows(users: map<int, User>, memberships: map<int, Membership>, order: seq<int>): (rows: seq<Json>)
    requires forall k :: 0 <= k < |order| ==> order[k] in users
    ensures |rows| == |order|
    ensures forall k :: 0 <= k < |order| ==> rows[k] == IndexRow(users[order[k]], memberships)
  {
    seq(|order|, k requires 0 <= k < |order| => IndexRow(users[order[k]], memberships))
  }
}
