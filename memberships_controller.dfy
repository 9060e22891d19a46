/**
 * The membership catalogue endpoints (api/v1/memberships_controller.rb):
 * listing, creating and deleting membership plans.
 */
module MembershipsController {
  import opened Wrappers
  import opened Json
  import opened ApplicationController
  import opened MembershipModel
  import opened UserModel
  import opened Store
  import Authenticatable

  const IN_USE := "이 멤버십을 사용하는 사용자가 있어 삭제할 수 없습니다."
  const NOT_FOUND_TEXT := "Membership not found"

  /**
   * A membership as Rails renders a model by default: all its columns,
   * `features` as the stored string and the timestamps included.
   */
  function RawMembershipJson(m: Membership): (j: Json)
    ensures j.Obj? && j.fields.Keys == {"id", "name", "features", "expires_at", "coupon_count", "created_at", "updated_at"}
    ensures Field(j, "id") == Int(m.id) && Field(j, "features") == Str(m.features)
    ensures Field(j, "created_at") == Int(m.createdAt) && Field(j, "updated_at") == Int(m.updatedAt)
  {
    Obj(map[
      "id" := Int(m.id),
      "name" := Str(m.name),
      "features" := Str(m.features),
      "expires_at" := Int(m.expiresAt),
      "coupon_count" := (if m.couponCount.Some? then Int(m.couponCount.value) else Null),
      "created_at" := Int(m.createdAt),
      "updated_at" := Int(m.updatedAt)])
  }

  /** `index`: every membership, in the order the table yields them (`order` lists their ids). */
  function Index(memberships: map<int, Membership>, order: seq<int>): (r: Rendered)
    requires ListsOnce(order, memberships.Keys)
    ensures r.status == OK && r.body.Arr? && |r.body.items| == |order| == |memberships|
    ensures forall k :: 0 <= k < |order| ==> r.body.items[k] == RawMembershipJson(memberships[order[k]])
  {
    ListsOnceLength(order, memberships.Keys);
    Rendered(OK, Arr(RawRows(memberships, order)))
  }

  function RawRows(memberships: map<int, Membership>, order: seq<int>): (rows: seq<Json>)
    requires forall k :: 0 <= k < |order| ==> order[k] in memberships
    ensures |rows| == |order| && forall k :: 0 <= k < |order| ==> rows[k] == RawMembershipJson(memberships[order[k]])
  {
    if order == [] then [] else [RawMembershipJson(memberships[order[0]])] + RawRows(memberships, order[1..])
  }

  /** A membership table together with the response that produced it. */
  datatype Change = Change(response: Rendered, memberships: map<int, Membership>)

  /**
   * `create`: a missing `membership` key is the 422 parameter error; a
   * valid parameter set is stored under the id the database assigns
   * (`newId`) and rendered with 201; otherwise 422 with `{errors}` and
   * nothing stored.
   */
  function Create(memberships: map<int, Membership>, params: Option<MembershipParams>, newId: int, now: int): (c: Change)
    requires newId !in memberships
    ensures params.None? ==> c == Change(RenderUnprocessable(ParameterMissingMessage("membership")), memberships)
    ensures c.response.status == CREATED <==> params.Some? && MembershipErrors(params.value, now, true) == []
    ensures c.response.status == CREATED ==> (c.memberships == memberships[newId := Build(newId, params.value, now)]
      && c.response.body == RawMembershipJson(c.memberships[newId]))
    ensures c.response.status != CREATED ==> c.memberships == memberships
    ensures params.Some? && MembershipErrors(params.value, now, true) != []
      ==> c.response == Rendered(UNPROCESSABLE_ENTITY, Obj(map["errors" := StrArr(MembershipErrors(params.value, now, true))]))
  {
    if params.None? then Change(RenderUnprocessable(ParameterMissingMessage("membership")), memberships)
    else
      var errs := MembershipErrors(params.value, now, true);
      if errs == [] then
        var m := Build(newId, params.value, now);
        Change(Rendered(CREATED, RawMembershipJson(m)), memberships[newId := m])
      else Change(Rendered(UNPROCESSABLE_ENTITY, Obj(map["errors" := StrArr(errs)])), memberships)
  }

  /**
   * A `coupon_count` sent as null is refused with 422 even when everything
   * else is valid: the presence and numericality checks both fail, and
   * nothing is stored. Left out, the same plan is created with 0 coupons.
   */
  lemma NullCouponCountRefused(memberships: map<int, Membership>, name: string, features: string, expiresAt: int, newId: int, now: int)
    requires newId !in memberships && PresentText(Some(name)) && PresentText(Some(features)) && expiresAt >= now
    ensures var c := Create(memberships, Some(MembershipParams(Some(name), Some(features), Some(expiresAt), SentNull)), newId, now);
      c.response == Rendered(UNPROCESSABLE_ENTITY, Obj(map["errors" := StrArr(["Coupon count can't be blank", "Coupon count is not a number"])]))
      && c.memberships == memberships
    ensures var c := Create(memberships, Some(MembershipParams(Some(name), Some(features), Some(expiresAt), Omitted)), newId, now);
      c.response.status == CREATED && c.memberships[newId].couponCount == Some(0)
  {
    var p := MembershipParams(Some(name), Some(features), Some(expiresAt), SentNull);
    assert MembershipErrors(p, now, true) == ["Coupon count can't be blank", "Coupon count is not a number"];
  }

  /**
   * `create` behind `before_action :authenticate_user!`: a request the token
   * check refuses is answered with that 401 and stores nothing; an admitted
   * request runs `create`.
   */
  function GuardedCreate(header: Option<string>, decode: string -> Option<Authenticatable.Claims>, users: map<int, User>,
                         memberships: map<int, Membership>, params: Option<MembershipParams>, newId: int, now: int): (c: Change)
    requires newId !in memberships
    ensures Authenticatable.Authenticate(header, decode, users, now).Denied?
      ==> c == Change(Authenticatable.Authenticate(header, decode, users, now).response, memberships)
    ensures Authenticatable.ExtractToken(header).None?
      ==> c.response == Authenticatable.Unauthorized(Authenticatable.TOKEN_REQUIRED) && c.memberships == memberships
    ensures c.response.status != UNAUTHORIZED <==> Authenticatable.Authenticate(header, decode, users, now).Authenticated?
    ensures Authenticatable.Authenticate(header, decode, users, now).Authenticated? ==> c == Create(memberships, params, newId, now)
  {
    match Authenticatable.Authenticate(header, decode, users, now)
    case Denied(r) => Change(r, memberships)
    case Authenticated(_) => Create(memberships, params, newId, now)
  }

  /** Creating keeps the tables consistent, and no user points at the new plan. */
  lemma CreateKeepsConsistent(users: map<int, User>, memberships: map<int, Membership>, params: Option<MembershipParams>, newId: int, now: int)
    requires Consistent(users, memberships) && newId !in memberships
    ensures Consistent(users, Create(memberships, params, newId, now).memberships)
    ensures !InUse(users, newId)
  {
    assert forall uid :: uid in users && users[uid].membershipId.Some? ==> users[uid].membershipId.value != newId;
  }

  /**
   * `destroy`: 404 for an unknown id, 409 while some user still points at
   * the plan, otherwise the plan is removed and the answer is 204 with no
   * body.
   */
  function Destroy(users: map<int, User>, memberships: map<int, Membership>, id: int): (c: Change)
    ensures id !in memberships ==> c == Change(RenderError(NOT_FOUND_TEXT, Null, NOT_FOUND), memberships)
    ensures id in memberships && InUse(users, id) ==> c == Change(RenderError(IN_USE, Null, CONFLICT), memberships)
    ensures c.response.status == NO_CONTENT <==> id in memberships && !InUse(users, id)
    ensures c.response.status == NO_CONTENT ==> c.memberships == memberships - {id} && c.response.body == Null
  {
    if id !in memberships then Change(RenderError(NOT_FOUND_TEXT, Null, NOT_FOUND), memberships)
    else if InUse(users, id) then Change(RenderError(IN_USE, Null, CONFLICT), memberships)
    else Change(Rendered(NO_CONTENT, Null), memberships - {id})
  }

  /**
   * `destroy` behind `before_action :authenticate_user!`: a refused token is
   * answered with 401 and nothing is deleted; an admitted request runs
   * `destroy`.
   */
  function GuardedDestroy(header: Option<string>, decode: string -> Option<Authenticatable.Claims>, users: map<int, User>,
                          memberships: map<int, Membership>, id: int, now: int): (c: Change)
    ensures Authenticatable.Authenticate(header, decode, users, now).Denied?
      ==> c == Change(Authenticatable.Authenticate(header, decode, users, now).response, memberships)
    ensures Authenticatable.ExtractToken(header).None?
      ==> c.response == Authenticatable.Unauthorized(Authenticatable.TOKEN_REQUIRED) && c.memberships == memberships
    ensures c.response.status != UNAUTHORIZED <==> Authenticatable.Authenticate(header, decode, users, now).Authenticated?
    ensures Authenticatable.Authenticate(header, decode, users, now).Authenticated? ==> c == Destroy(users, memberships, id)
  {
    match Authenticatable.Authenticate(header, decode, users, now)
    case Denied(r) => Change(r, memberships)
    case Authenticated(_) => Destroy(users, memberships, id)
  }

  /** The conflict check is what keeps deletion from leaving a user pointing at nothing. */
  lemma DestroyKeepsConsistent(users: map<int, User>, memberships: map<int, Membership>, id: int)
    requires Consistent(users, memberships)
    ensures Consistent(users, Destroy(users, memberships, id).memberships)
  {
    if id in memberships && !InUse(users, id) {
      forall uid | uid in users && users[uid].membershipId.Some?
        ensures users[uid].membershipId.value in memberships - {id}
      {
        assert users[uid].membershipId.value != id;
      }
    }
  }

  /** Deleting without the conflict check would break the tables whenever the plan is in use. */
  lemma UncheckedDeleteBreaksConsistency(users: map<int, User>, memberships: map<int, Membership>, id: int)
    requires InUse(users, id)
    ensures !Consistent(users, memberships - {id})
  {
    var uid :| uid in users && users[uid].membershipId == Some(id);
    assert users[uid].membershipId.value !in memberships - {id};
  }

  /** `create` on the tables; the database chooses `newId`. */
  method CreateMembership(db: Db, params: Option<MembershipParams>, newId: int, now: int) returns (r: Rendered)
    requires db.Valid() && newId !in db.memberships
    modifies db
    ensures db.Valid() && db.users == old(db.users)
    ensures Change(r, db.memberships) == Create(old(db.memberships), params, newId, now)
  {
    var c := Create(db.memberships, params, newId, now);
    CreateKeepsConsistent(db.users, db.memberships, params, newId, now);
    db.memberships := c.memberships;
    r := c.response;
  }

  /** `destroy` on the tables. */
  method DestroyMembership(db: Db, id: int) returns (r: Rendered)
    requires db.Valid()
    modifies db
    ensures db.Valid() && db.users == old(db.users)
    ensures Change(r, db.memberships) == Destroy(db.users, old(db.memberships), id)
  {
    var c := Destroy(db.users, db.memberships, id);
    DestroyKeepsConsistent(db.users, db.memberships, id);
    db.memberships := c.memberships;
    r := c.response;
  }
}
