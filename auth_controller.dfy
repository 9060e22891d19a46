/**
 * Sign-up and sign-in (api/v1/auth_controller.rb): `register` creates a
 * user, hands it the trial membership named "체험" if one exists, and
 * returns a token; `login` checks the credentials and returns a token.
 * Tokens are the 24-hour claims of `Authenticatable.IssueClaims`, written
 * by the codec `encode` (JWT signing is not modelled).
 */
module AuthController {
  import opened Wrappers
  import opened Json
  import opened ApplicationController
  import opened MembershipModel
  import opened UserModel
  import opened MembershipPolicy
  import opened Store
  import opened Authenticatable
  import UsersController
  import Text

  const TRIAL := "체험"
  const REGISTERED := "회원가입이 완료되었습니다."
  const REGISTER_FAILED := "회원가입에 실패했습니다."
  const LOGGED_IN := "로그인에 성공했습니다."
  const LOGIN_FAILED := "이메일 또는 비밀번호가 올바르지 않습니다."
  const CONFIRMATION_MISMATCH := "Password confirmation doesn't match Password"

  /** The permitted `user` parameters; `None` is an absent key. */
  datatype RegisterParams = RegisterParams(email: Option<string>, password: Option<string>, confirmation: Option<string>)

  /** The permitted `auth` parameters. */
  datatype LoginParams = LoginParams(email: Option<string>, password: Option<string>)

  /**
   * `user_response`: `{id, email, membership}` where the membership is
   * `{id, name, features, expires_at}` with the raw features string, or
   * nil; the chat balance is not part of it.
   */
  function UserResponse(u: User, memberships: map<int, Membership>): (j: Json)
    ensures j.Obj? && j.fields.Keys == {"id", "email", "membership"}
    ensures Field(j, "id") == Int(u.id) && Field(j, "email") == Str(u.email)
    ensures MembershipOf(u, memberships).None? <==> Field(j, "membership") == Null
    ensures MembershipOf(u, memberships).Some? ==>
      (var m := MembershipOf(u, memberships).value;
       Field(j, "membership") == Obj(map["id" := Int(m.id), "name" := Str(m.name), "features" := Str(m.features), "expires_at" := Int(m.expiresAt)]))
  {
    var membership := match MembershipOf(u, memberships)
      case None => Null
      case Some(m) => Obj(map["id" := Int(m.id), "name" := Str(m.name), "features" := Str(m.features), "expires_at" := Int(m.expiresAt)]);
    Obj(map["id" := Int(u.id), "email" := Str(u.email), "membership" := membership])
  }

  /**
   * `has_secure_password`'s confirmation check: it applies only when a
   * confirmation was sent and the password is not blank.
   */
  predicate ConfirmationMismatch(p: RegisterParams) {
    p.confirmation.Some? && p.password.Some? && !Text.IsBlank(p.password.value) && p.confirmation.value != p.password.value
  }

  /** The messages the first `save` reports: the user validations on create, then the confirmation check. */
  function RegisterErrors(users: map<int, User>, p: RegisterParams): (errs: seq<string>)
    ensures errs == [] <==>
      UserErrors(p.email.GetOr(""), p.password, p.email.Some? && EmailTaken(users, p.email.value, None), true) == []
      && !ConfirmationMismatch(p)
  {
    UserErrors(p.email.GetOr(""), p.password, p.email.Some? && EmailTaken(users, p.email.value, None), true)
    + (if ConfirmationMismatch(p) then [CONFIRMATION_MISMATCH] else [])
  }

  /** `Membership.find_by(name: "체험")`: `trial` is the row found, or none exists. */
  predicate TrialLookup(memberships: map<int, Membership>, trial: Option<int>) {
    (trial.Some? ==> trial.value in memberships && memberships[trial.value].name == TRIAL)
    && (trial.None? ==> forall mid :: mid in memberships ==> memberships[mid].name != TRIAL)
  }

  /**
   * The new row: the submitted email and password, and with a trial plan
   * that plan and a balance SET to the plan's grant, whatever its features;
   * without one, no membership and a nil balance.
   */
  function NewUser(p: RegisterParams, newId: int, trial: Option<Membership>, env: Env): (u: User)
    ensures u.id == newId && u.email == p.email.GetOr("") && u.password == p.password.GetOr("")
    ensures trial.Some? ==> u.membershipId == Some(trial.value.id) && u.chatCoupons == Some(UsersController.PlanGrant(trial.value, env))
    ensures trial.None? ==> u.membershipId.None? && u.chatCoupons.None?
  {
    var base := User(newId, p.email.GetOr(""), p.password.GetOr(""), None, None);
    match trial
    case None => base
    case Some(t) => base.(membershipId := Some(t.id), chatCoupons := Some(UsersController.PlanGrant(t, env)))
  }

  function TrialRow(memberships: map<int, Membership>, trial: Option<int>): Option<Membership>
    requires trial.Some? ==> trial.value in memberships
  {
    if trial.Some? then Some(memberships[trial.value]) else None
  }

  /**
   * `register`: a missing `user` key is the 422 parameter error; a user
   * that fails validation is 422 `{message, errors}` and nothing is stored;
   * otherwise the new row (see `NewUser`) is stored under the id the
   * database assigns, and the answer is 201 with a token issued `now`.
   */
  function Register(users: map<int, User>, memberships: map<int, Membership>, params: Option<RegisterParams>, trial: Option<int>,
                    newId: int, env: Env, now: int, encode: Claims -> string): (up: UsersController.Update)
    requires newId !in users && TrialLookup(memberships, trial)
    ensures params.None? ==> up == UsersController.Update(RenderUnprocessable(ParameterMissingMessage("user")), users)
    ensures up.response.status == CREATED <==> params.Some? && RegisterErrors(users, params.value) == []
    ensures up.response.status == CREATED ==>
      (var u := NewUser(params.value, newId, TrialRow(memberships, trial), env);
       up.users == users[newId := u]
       && Field(up.response.body, "message") == Str(REGISTERED)
       && Field(up.response.body, "token") == Str(encode(IssueClaims(u, now)))
       && Field(up.response.body, "user") == UserResponse(u, memberships))
    ensures up.response.status != CREATED ==> up.users == users
    ensures params.Some? && RegisterErrors(users, params.value) != [] ==>
      up.response == Rendered(UNPROCESSABLE_ENTITY, Obj(map["message" := Str(REGISTER_FAILED), "errors" := StrArr(RegisterErrors(users, params.value))]))
  {
    if params.None? then UsersController.Update(RenderUnprocessable(ParameterMissingMessage("user")), users)
    else
      var errs := RegisterErrors(users, params.value);
      if errs != [] then
        UsersController.Update(Rendered(UNPROCESSABLE_ENTITY, Obj(map["message" := Str(REGISTER_FAILED), "errors" := StrArr(errs)])), users)
      else
        var u := NewUser(params.value, newId, TrialRow(memberships, trial), env);
        UsersController.Update(
          Rendered(CREATED, Obj(map["message" := Str(REGISTERED), "token" := Str(encode(IssueClaims(u, now))), "user" := UserResponse(u, memberships)])),
          users[newId := u])
  }

  /** A successful sign-up keeps the tables consistent. */
  lemma RegisterKeepsConsistent(users: map<int, User>, memberships: map<int, Membership>, params: Option<RegisterParams>, trial: Option<int>,
                                newId: int, env: Env, now: int, encode: Claims -> string)
    requires Consistent(users, memberships) && newId !in users && TrialLookup(memberships, trial)
    ensures Consistent(Register(users, memberships, params, trial, newId, env, now, encode).users, memberships)
  {
    var up := Register(users, memberships, params, trial, newId, env, now, encode);
    if up.response.status == CREATED {
      var p := params.value;
      var u := NewUser(p, newId, TrialRow(memberships, trial), env);
      assert !EmailTaken(users, u.email, None) by {
        assert UserErrors(p.email.GetOr(""), p.password, p.email.Some? && EmailTaken(users, p.email.value, None), true) == [];
        assert !Text.IsBlank(p.email.GetOr(""));
      }
      assert trial.Some? ==> memberships[trial.value].id == trial.value;
      assert forall uid :: uid in users ==> users[uid].email != u.email;
    }
  }

  /**
   * The trial grant with nothing overridden: a "체험" plan whose own count is
   * not positive gives the default policy value, 0.
   */
  lemma TrialGrantDefault(t: Membership)
    requires t.name == TRIAL && t.couponCount.GetOr(0) <= 0
    ensures UsersController.PlanGrant(t, NO_OVERRIDES) == 0
  {
    assert !Text.Contains(TRIAL, BASIC) && !Text.Contains(TRIAL, PREMIUM);
    DefaultPolicy(Some(t.name));
  }

  /**
   * Sign-up SETS the balance and ignores the features, where an admin grant
   * ADDS and only for a chat plan: a trial plan without the chat feature
   * still gives its coupons at sign-up, while granting it leaves a nil
   * balance nil.
   */
  lemma RegisterSetsWhereGrantAdds(p: RegisterParams, newId: int, t: Membership, env: Env)
    requires !HasFeature(t, CHAT)
    ensures NewUser(p, newId, Some(t), env).chatCoupons == Some(UsersController.PlanGrant(t, env))
    ensures UsersController.Granted(NewUser(p, newId, None, env), t, env).chatCoupons == None
  {
  }

  /** Password check of `authenticate`: the submitted password equals the stored one. */
  predicate Authenticates(u: User, password: Option<string>) {
    password.Some? && password.value == u.password
  }

  /** Some stored row holds `email`. */
  predicate Registered(users: map<int, User>, email: string) {
    exists uid :: uid in users && users[uid].email == email
  }

  /**
   * `login`: a missing `auth` key is the 422 parameter error; the row with
   * the submitted email whose password matches gets 200 with a token;
   * an unknown email and a wrong password get the same 401.
   */
  function Login(users: map<int, User>, memberships: map<int, Membership>, params: Option<LoginParams>, now: int, encode: Claims -> string): (r: Rendered)
    requires Consistent(users, memberships)
    ensures params.None? ==> r == RenderUnprocessable(ParameterMissingMessage("auth"))
    ensures r.status == OK <==> params.Some? && exists uid :: uid in users && Some(users[uid].email) == params.value.email && Authenticates(users[uid], params.value.password)
    ensures params.Some? && r.status != OK ==> r == Unauthorized(LOGIN_FAILED)
    ensures r.status == OK ==> forall uid :: uid in users && Some(users[uid].email) == params.value.email ==>
      (Field(r.body, "user") == UserResponse(users[uid], memberships) && Field(r.body, "token") == Str(encode(IssueClaims(users[uid], now))))
  {
    if params.None? then RenderUnprocessable(ParameterMissingMessage("auth"))
    else if params.value.email.None? || !Registered(users, params.value.email.value) then Unauthorized(LOGIN_FAILED)
    else
      var uid :| uid in users && users[uid].email == params.value.email.value;
      var u := users[uid];
      if Authenticates(u, params.value.password) then
        Rendered(OK, Obj(map["message" := Str(LOGGED_IN), "token" := Str(encode(IssueClaims(u, now))), "user" := UserResponse(u, memberships)]))
      else Unauthorized(LOGIN_FAILED)
  }

  /** Whoever has just signed up can sign in with the same email and password. */
  lemma RegisterThenLogin(users: map<int, User>, memberships: map<int, Membership>, p: RegisterParams, trial: Option<int>,
                          newId: int, env: Env, now: int, later: int, encode: Claims -> string)
    requires Consistent(users, memberships) && newId !in users && TrialLookup(memberships, trial)
    requires Register(users, memberships, Some(p), trial, newId, env, now, encode).response.status == CREATED
    ensures var after := Register(users, memberships, Some(p), trial, newId, env, now, encode).users;
      Consistent(after, memberships)
      && Login(after, memberships, Some(LoginParams(p.email, p.password)), later, encode).status == OK
      && Field(Login(after, memberships, Some(LoginParams(p.email, p.password)), later, encode).body, "user")
         == UserResponse(after[newId], memberships)
  {
    RegisterKeepsConsistent(users, memberships, Some(p), trial, newId, env, now, encode);
    var after := Register(users, memberships, Some(p), trial, newId, env, now, encode).users;
    var u := after[newId];
    assert p.email.Some? by {
      assert !Text.IsBlank(p.email.GetOr(""));
    }
    assert p.password.Some?;
    assert Some(after[newId].email) == p.email && Authenticates(after[newId], p.password);
  }

  /** `register` on the tables; the database chooses `newId`. */
  method RegisterUser(db: Db, params: Option<RegisterParams>, trial: Option<int>, newId: int, env: Env, now: int, encode: Claims -> string)
    returns (r: Rendered)
    requires db.Valid() && newId !in db.users && TrialLookup(db.memberships, trial)
    modifies db
    ensures db.Valid() && db.memberships == old(db.memberships)
    ensures UsersController.Update(r, db.users) == Register(old(db.users), db.memberships, params, trial, newId, env, now, encode)
  {
    var up := Register(db.users, db.memberships, params, trial, newId, env, now, encode);
    RegisterKeepsConsistent(db.users, db.memberships, params, trial, newId, env, now, encode);
    db.users := up.users;
    r := up.response;
  }
}
