/**
 * The payment endpoint (api/v1/payments_controller.rb): an authenticated
 * user pays (always 0) through the mock gateway for a membership, which is
 * then assigned together with its chat coupons.
 */
module PaymentsController {
  import opened Wrappers
  import opened Json
  import opened ApplicationController
  import opened MembershipModel
  import opened UserModel
  import opened PgMockClient
  import opened Store
  import opened Serializers
  import UsersController
  import opened Text
  import opened MembershipPolicy
  import Authenticatable

  const ID_REQUIRED := "멤버십 ID가 필요합니다."
  const MEMBERSHIP_MISSING := "멤버십을 찾을 수 없습니다."
  const CARD_INVALID := "결제 정보가 올바르지 않습니다."
  const PAID := "결제가 완료되었습니다."
  const ASSIGN_FAILED := "멤버십 할당에 실패했습니다."

  /**
   * The permitted `payment` parameters. `membershipId` is `None` when
   * absent or nil; an id that names no row is simply not found.
   */
  datatype PaymentParams = PaymentParams(membershipId: Option<int>, card: Card)

  /**
   * The user after payment: the membership replaced and, for a chat
   * membership, its own `coupon_count || 0` added to the balance (no policy
   * fallback here, unlike the admin grant).
   */
  function Paid(u: User, m: Membership): (v: User)
    ensures v.id == u.id && v.email == u.email && v.password == u.password
    ensures v.membershipId == Some(m.id)
    ensures v.chatCoupons == if HasFeature(m, CHAT) then Some(u.chatCoupons.GetOr(0) + m.couponCount.GetOr(0)) else u.chatCoupons
  {
    var w := u.(membershipId := Some(m.id));
    if HasFeature(m, CHAT) then w.(chatCoupons := Some(u.chatCoupons.GetOr(0) + m.couponCount.GetOr(0))) else w
  }

  /**
   * `create` for the authenticated user `userId`: a missing `payment` key is
   * the 422 parameter error; then 400 without a membership id, 404 for an
   * unknown membership, 422 with the gateway's message for a rejected card,
   * and after the charge (amount 0) the saved user, or 422 with the
   * validation messages. `random` is the gateway's random draw.
   */
  function Create(users: map<int, User>, memberships: map<int, Membership>, userId: int, payment: Option<PaymentParams>, random: seq<int>): (up: UsersController.Update)
    requires userId in users
    requires |random| == 8 && forall i :: 0 <= i < 8 ==> IsByte(random[i])
    ensures payment.None? ==> up == UsersController.Update(RenderUnprocessable(ParameterMissingMessage("payment")), users)
    ensures payment.Some? && payment.value.membershipId.None? ==> up == UsersController.Update(RenderError(ID_REQUIRED, Null, BAD_REQUEST), users)
    ensures payment.Some? && payment.value.membershipId.Some? && payment.value.membershipId.value !in memberships
      ==> up == UsersController.Update(RenderError(MEMBERSHIP_MISSING, Null, NOT_FOUND), users)
    ensures payment.Some? && payment.value.membershipId.Some? && payment.value.membershipId.value in memberships && ValidateCard(payment.value.card).Some?
      ==> up == UsersController.Update(RenderError(CARD_INVALID, Str(ValidateCard(payment.value.card).value), UNPROCESSABLE_ENTITY), users)
    ensures up.response.status == OK <==> (payment.Some? && payment.value.membershipId.Some? && payment.value.membershipId.value in memberships
      && ValidateCard(payment.value.card).None? && SaveErrors(users, Paid(users[userId], memberships[payment.value.membershipId.value])) == [])
    ensures up.response.status == OK ==> up.users == users[userId := Paid(users[userId], memberships[payment.value.membershipId.value])]
    ensures up.response.status != OK ==> up.users == users
  {
    if payment.None? then UsersController.Update(RenderUnprocessable(ParameterMissingMessage("payment")), users)
    else if payment.value.membershipId.None? then UsersController.Update(RenderError(ID_REQUIRED, Null, BAD_REQUEST), users)
    else if payment.value.membershipId.value !in memberships then UsersController.Update(RenderError(MEMBERSHIP_MISSING, Null, NOT_FOUND), users)
    else
      var m := memberships[payment.value.membershipId.value];
      match Charge(0, payment.value.card, random)
      case Rejected(message) => UsersController.Update(RenderError(CARD_INVALID, Str(message), UNPROCESSABLE_ENTITY), users)
      case Charged(result) =>
        var v := Paid(users[userId], m);
        var errs := SaveErrors(users, v);
        if errs == [] then
          UsersController.Update(Rendered(OK, Obj(map["message" := Str(PAID), "payment" := Receipt(result, m), "user" := UserAsJson(Some(v), memberships)])), users[userId := v])
        else UsersController.Update(RenderError(ASSIGN_FAILED, StrArr(errs), UNPROCESSABLE_ENTITY), users)
  }

  /**
   * `create` behind `before_action :authenticate_user!`: a refused token is
   * answered with that 401 and nothing is charged or stored; an admitted
   * request runs `create` for the user the token names.
   */
  function GuardedCreate(header: Option<string>, decode: string -> Option<Authenticatable.Claims>, now: int, users: map<int, User>,
                         memberships: map<int, Membership>, payment: Option<PaymentParams>, random: seq<int>): (up: UsersController.Update)
    requires |random| == 8 && forall i :: 0 <= i < 8 ==> IsByte(random[i])
    ensures Authenticatable.Authenticate(header, decode, users, now).Denied?
      ==> up == UsersController.Update(Authenticatable.Authenticate(header, decode, users, now).response, users)
    ensures Authenticatable.ExtractToken(header).None?
      ==> up.response == Authenticatable.Unauthorized(Authenticatable.TOKEN_REQUIRED) && up.users == users
    ensures up.response.status != UNAUTHORIZED <==> Authenticatable.Authenticate(header, decode, users, now).Authenticated?
    ensures Authenticatable.Authenticate(header, decode, users, now).Authenticated?
      ==> up == Create(users, memberships, Authenticatable.AdmittedId(header, decode, users, now), payment, random)
  {
    match Authenticatable.Authenticate(header, decode, users, now)
    case Denied(r) => UsersController.Update(r, users)
    case Authenticated(_) => Create(users, memberships, Authenticatable.AdmittedId(header, decode, users, now), payment, random)
  }

  /** The `payment` object of the response: the gateway's id and amount, "completed", and the membership name. */
  function Receipt(result: PaymentResult, m: Membership): Json {
    Obj(map[
      "id" := Str(result.paymentId),
      "amount" := Int(result.amount),
      "status" := Str("completed"),
      "membership_name" := Str(m.name)])
  }

  /** Payment and the admin grant agree when the membership carries a positive coupon count. */
  lemma PaidAgreesWithGrant(u: User, m: Membership, env: Env)
    requires m.couponCount.GetOr(0) > 0
    ensures Paid(u, m) == UsersController.Granted(u, m, env)
  {
    assert UsersController.PlanGrant(m, env) == m.couponCount.GetOr(0);
  }

  /**
   * With a coupon count of 0 they differ: payment for a premium chat plan
   * adds nothing, while the admin grant with no overrides adds 30.
   */
  lemma PaidSkipsPolicy(u: User, m: Membership)
    requires m.couponCount.GetOr(0) == 0 && HasFeature(m, CHAT)
    requires !Contains(m.name, BASIC) && Contains(m.name, PREMIUM)
    ensures Paid(u, m).chatCoupons == Some(u.chatCoupons.GetOr(0))
    ensures UsersController.Granted(u, m, NO_OVERRIDES).chatCoupons == Some(u.chatCoupons.GetOr(0) + 30)
  {
    UsersController.GrantVectors(m);
    ChatGrants(u, m, NO_OVERRIDES);
  }

  /** For a chat membership, payment adds the membership's own count and the admin grant the plan grant. */
  lemma ChatGrants(u: User, m: Membership, env: Env)
    requires HasFeature(m, CHAT)
    ensures Paid(u, m).chatCoupons == Some(u.chatCoupons.GetOr(0) + m.couponCount.GetOr(0))
    ensures UsersController.Granted(u, m, env).chatCoupons == Some(u.chatCoupons.GetOr(0) + UsersController.PlanGrant(m, env))
  {
    var paid, granted := Paid(u, m), UsersController.Granted(u, m, env);
  }

  /** A successful payment keeps the tables consistent. */
  lemma CreateKeepsConsistent(users: map<int, User>, memberships: map<int, Membership>, userId: int, payment: Option<PaymentParams>, random: seq<int>)
    requires Consistent(users, memberships) && userId in users
    requires |random| == 8 && forall i :: 0 <= i < 8 ==> IsByte(random[i])
    ensures Consistent(Create(users, memberships, userId, payment, random).users, memberships)
  {
    if Create(users, memberships, userId, payment, random).response.status == OK {
      var m := memberships[payment.value.membershipId.value];
      assert m.id == payment.value.membershipId.value;
      UpdateKeepsConsistent(users, memberships, Paid(users[userId], m));
    }
  }

  /** `create` on the tables. */
  method CreatePayment(db: Db, userId: int, payment: Option<PaymentParams>, random: seq<int>) returns (r: Rendered)
    requires db.Valid() && userId in db.users
    requires |random| == 8 && forall i :: 0 <= i < 8 ==> IsByte(random[i])
    modifies db
    ensures db.Valid() && db.memberships == old(db.memberships)
    ensures UsersController.Update(r, db.users) == Create(old(db.users), db.memberships, userId, payment, random)
  {
    var up := Create(db.users, db.memberships, userId, payment, random);
    CreateKeepsConsistent(db.users, db.memberships, userId, payment, random);
    db.users := up.users;
    r := up.response;
  }
}
