/**
 * `UserService`: sign-up, sign-in, withdrawal, the paid subscription switch,
 * the cash query and charge requests, as this revision of the service
 * implements them.
 *
 * The user repository is a map from email (the login key) to the `User`
 * object stored under it; mutating that object is what persists a change,
 * as the entity manager's dirty checking does inside the service's
 * transaction. The charge repository is the sequence of saved records.
 * Password hashing is a pair of functions the service is built with; the
 * access-token issuer and the current year-month are parameters.
 */
module Services {
  import opened JavaLang
  import opened Users

  /** The service's reply: an HTTP-style code and a message. */
  datatype ApiResponse = ApiResponse(code: int, msg: string)

  /** `ApiResponse.create(msg)`. */
  function CreateResponse(msg: string): ApiResponse { ApiResponse(201, msg) }

  /** `ApiResponse.ok(msg)`. */
  function OkResponse(msg: string): ApiResponse { ApiResponse(200, msg) }

  /** The password encoder the service is given: one-way `encode` and its check `matches(raw, encoded)`. */
  datatype PasswordEncoder = PasswordEncoder(encode: string -> string, matches: (string, string) -> bool)

  datatype SigninRequest = SigninRequest(email: string, password: string)

  datatype WithdrawRequest = WithdrawRequest(msg: string)

  /** Present (non-null) only when the user asks to cancel the subscription. */
  datatype ReleasePaidRequest = ReleasePaidRequest(msg: string)

  /** A charge request: the amount and the deposit message the user enters. */
  datatype ChargingRequest = ChargingRequest(cash: int, msg: string)

  /** What `charging` saves: the requesting user's id and the request. */
  datatype ChargeRecord = ChargeRecord(userId: Option<int>, request: ChargingRequest)

  /** The exact phrase a user must type to withdraw. */
  const WithdrawPhrase: string := "회원탈퇴"
  /** The price of the paid role, debited from cash. */
  const SubscriptionPrice: Int32 := 5000

  const DuplicateEmailMsg: string := "이메일 중복"
  const DuplicateNicknameMsg: string := "닉네임 중복"
  const SignUpDoneMsg: string := "회원가입 완료"
  /** Shared by "no such email" and "wrong password", so the two cannot be told apart. */
  const BadCredentialsMsg: string := "아이디 또는 비밀번호를 잘못 입력하셨습니다"
  const DormantAccountMsg: string := "탈퇴한 계정입니다"
  const WrongPhraseMsg: string := "잘못된 문자열 입력"
  const WithdrawDoneMsg: string := "회원 탈퇴 완료"
  const LowCashMsg: string := "금액이 부족합니다"
  const CancelRequestedMsg: string := "해지 신청 성공"
  const RoleChangedMsg: string := "권한 변경 성공"
  const ChargeRequestedMsg: string := "요청 성공"

  class UserService {
    var userRepository: map<string, User>
    var cashRepository: seq<ChargeRecord>
    const passwordEncoder: PasswordEncoder

    /**
     * The repository's unique columns: every user is stored under its own
     * email (so two keys never share one object) and no two users share a
     * nickname.
     */
    ghost predicate Valid()
      reads this, userRepository.Values
    {
      (forall e :: e in userRepository ==> userRepository[e].email == e) &&
      (forall e1, e2 :: e1 in userRepository && e2 in userRepository && e1 != e2 ==>
         userRepository[e1].nickname != userRepository[e2].nickname)
    }

    /** No stored user has a negative balance. */
    ghost predicate NoNegativeCash()
      reads this, userRepository.Values
    {
      forall e :: e in userRepository ==> userRepository[e].cash >= 0
    }

    /** Some stored user has this nickname (`existsUserByNickname`). */
    ghost predicate NicknameTaken(nickname: string)
      reads this, userRepository.Values
    {
      exists e :: e in userRepository && userRepository[e].nickname == nickname
    }

    constructor (passwordEncoder: PasswordEncoder)
      ensures Valid() && NoNegativeCash()
      ensures userRepository == map[] && cashRepository == []
      ensures this.passwordEncoder == passwordEncoder
    {
      userRepository := map[];
      cashRepository := [];
      this.passwordEncoder := passwordEncoder;
    }

    /** `findByUser(email)`: the stored user, or the bad-credentials error. */
    method FindByUser(email: string) returns (r: Result<User>)
      ensures r.Ok? <==> email in userRepository
      ensures r.Ok? ==> r.value == userRepository[email]
      ensures r.Err? ==> r.error == IllegalArgument(BadCredentialsMsg)
    {
      if email in userRepository {
        r := Ok(userRepository[email]);
      } else {
        r := Err(IllegalArgument(BadCredentialsMsg));
      }
    }

    /**
     * `signUp(request)`: the email is checked first, then the nickname; only
     * when both are free is one new user saved, with the encoded password.
     */
    method SignUp(request: SignupRequest) returns (r: Result<ApiResponse>)
      requires Valid()
      modifies this
      ensures Valid()
      ensures old(NoNegativeCash()) ==> NoNegativeCash()
      ensures cashRepository == old(cashRepository)
      ensures r.Ok? <==> request.email !in old(userRepository) && !old(NicknameTaken(request.nickname))
      ensures request.email in old(userRepository) ==>
                r == Err(IllegalArgument(DuplicateEmailMsg))
      ensures request.email !in old(userRepository) && old(NicknameTaken(request.nickname)) ==>
                r == Err(IllegalArgument(DuplicateNicknameMsg))
      ensures r.Err? ==> userRepository == old(userRepository)
      ensures r.Ok? ==>
                r.value == CreateResponse(SignUpDoneMsg) &&
                userRepository.Keys == old(userRepository).Keys + {request.email} &&
                (forall e :: e in old(userRepository) ==> userRepository[e] == old(userRepository)[e]) &&
                fresh(userRepository[request.email]) &&
                userRepository[request.email].State() ==
                  Registered(request, passwordEncoder.encode(request.password))
    {
      if request.email in userRepository {
        return Err(IllegalArgument(DuplicateEmailMsg));
      }
      var taken := exists e :: e in userRepository && userRepository[e].nickname == request.nickname;
      if taken {
        return Err(IllegalArgument(DuplicateNicknameMsg));
      }
      var password := passwordEncoder.encode(request.password);
      var user := new User(request, password);
      userRepository := userRepository[request.email := user];
      r := Ok(CreateResponse(SignUpDoneMsg));
    }

    /**
     * `signIn(request)`: unknown email, then a DORMANT account, then a
     * password mismatch; a token is issued only when all three pass.
     * `accessToken(email, id)` stands for the token issuer.
     */
    method SignIn(request: SigninRequest, accessToken: (string, Option<int>) -> string)
      returns (r: Result<string>)
      ensures request.email !in userRepository ==>
                r == Err(IllegalArgument(BadCredentialsMsg))
      ensures request.email in userRepository && userRepository[request.email].status == DORMANT ==>
                r == Err(IllegalArgument(DormantAccountMsg))
      ensures request.email in userRepository && userRepository[request.email].status != DORMANT &&
              !passwordEncoder.matches(request.password, userRepository[request.email].password) ==>
                r == Err(IllegalArgument(BadCredentialsMsg))
      ensures r.Ok? <==>
                request.email in userRepository &&
                userRepository[request.email].status != DORMANT &&
                passwordEncoder.matches(request.password, userRepository[request.email].password)
      ensures r.Ok? ==>
                r.value == accessToken(userRepository[request.email].email, userRepository[request.email].id)
    {
      var found := FindByUser(request.email);
      if found.Err? {
        return Err(found.error);
      }
      var user := found.value;
      if user.status == DORMANT {
        return Err(IllegalArgument(DormantAccountMsg));
      }
      if !passwordEncoder.matches(request.password, user.password) {
        return Err(IllegalArgument(BadCredentialsMsg));
      }
      r := Ok(accessToken(user.email, user.id));
    }

    /**
     * `withdraw(request, email)`: a message other than the exact phrase is
     * rejected before the user is looked up; otherwise the user becomes
     * DORMANT and nothing else changes.
     */
    method Withdraw(request: WithdrawRequest, email: string) returns (r: Result<ApiResponse>)
      requires Valid()
      modifies userRepository.Values
      ensures Valid()
      ensures old(NoNegativeCash()) ==> NoNegativeCash()
      ensures request.msg != WithdrawPhrase ==> r == Err(IllegalArgument(WrongPhraseMsg))
      ensures request.msg == WithdrawPhrase && email !in userRepository ==>
                r == Err(IllegalArgument(BadCredentialsMsg))
      ensures r.Ok? <==> request.msg == WithdrawPhrase && email in userRepository
      ensures r.Ok? ==>
                r.value == OkResponse(WithdrawDoneMsg) &&
                userRepository[email].State() == old(userRepository[email].State()).(status := DORMANT)
      ensures forall e :: e in userRepository && (r.Err? || e != email) ==>
                userRepository[e].State() == old(userRepository[e].State())
    {
      if request.msg != WithdrawPhrase {
        return Err(IllegalArgument(WrongPhraseMsg));
      }
      var found := FindByUser(email);
      if found.Err? {
        return Err(found.error);
      }
      var user := found.value;
      user.SetStatus("DORMANT");
      r := Ok(OkResponse(WithdrawDoneMsg));
    }

    /**
     * `setPaid(request, email)`. With no request (subscribe), a user with
     * less than the price is refused; otherwise the price is debited, the
     * role becomes PAID and the payment date is the current year-month.
     * With a request (cancel), only the payment date changes, to the
     * request's message. An unknown email fails in both modes.
     */
    method SetPaid(request: Option<ReleasePaidRequest>, email: string, currentYearMonth: string)
      returns (r: Result<ApiResponse>)
      requires Valid()
      modifies userRepository.Values
      ensures Valid()
      ensures old(NoNegativeCash()) ==> NoNegativeCash()
      ensures email !in userRepository ==> r == Err(IllegalArgument(BadCredentialsMsg))
      ensures email in userRepository && request.None? && old(userRepository[email].cash) < SubscriptionPrice ==>
                r == Err(IllegalArgument(LowCashMsg))
      ensures r.Ok? <==>
                email in userRepository &&
                (request.Some? || old(userRepository[email].cash) >= SubscriptionPrice)
      ensures r.Ok? && request.None? ==>
                r.value == OkResponse(RoleChangedMsg) &&
                userRepository[email].State() ==
                  old(userRepository[email].State()).(cash := old(userRepository[email].cash) - SubscriptionPrice,
                                                      role := ROLE_PAID,
                                                      paymentDate := Some(currentYearMonth)) &&
                userRepository[email].cash >= 0
      ensures r.Ok? && request.Some? ==>
                r.value == OkResponse(CancelRequestedMsg) &&
                userRepository[email].State() ==
                  old(userRepository[email].State()).(paymentDate := Some(request.value.msg))
      ensures forall e :: e in userRepository && (r.Err? || e != email) ==>
                userRepository[e].State() == old(userRepository[e].State())
    {
      var found := FindByUser(email);
      if found.Err? {
        return Err(found.error);
      }
      var user := found.value;
      if request.None? {
        if user.cash < SubscriptionPrice {
          return Err(IllegalArgument(LowCashMsg));
        }
        user.SetCash("-", SubscriptionPrice);
        user.SetRole("PAID");
        user.SetPaymentDate(currentYearMonth);
      } else {
        user.SetPaymentDate(request.value.msg);
        return Ok(OkResponse(CancelRequestedMsg));
      }
      r := Ok(OkResponse(RoleChangedMsg));
    }

    /** `getCash(user)`: the user's balance, read without change. */
    method GetCash(user: User) returns (cash: Int32)
      ensures cash == user.cash
    {
      cash := user.cash;
    }

    /** `charging(request, userId)`: saves one charge record and touches no user. */
    method Charging(chargingRequest: ChargingRequest, userId: Option<int>) returns (r: ApiResponse)
      requires Valid()
      modifies this
      ensures Valid()
      ensures old(NoNegativeCash()) ==> NoNegativeCash()
      ensures cashRepository == old(cashRepository) + [ChargeRecord(userId, chargingRequest)]
      ensures userRepository == old(userRepository)
      ensures r == OkResponse(ChargeRequestedMsg)
    {
      cashRepository := cashRepository + [ChargeRecord(userId, chargingRequest)];
      r := OkResponse(ChargeRequestedMsg);
    }
  }

  /**
   * Subscribe mode is exactly the three setter calls `setPaid` makes, in
   * order: debit the price, set the role to PAID, record the year-month.
   */
  lemma SubscribeBySetters(u: UserState, currentYearMonth: string)
    requires u.cash >= SubscriptionPrice
    ensures ApplyAll(u, [CashSet("-", SubscriptionPrice), RoleSet("PAID"), PaymentDateSet(currentYearMonth)])
            == u.(cash := u.cash - SubscriptionPrice, role := ROLE_PAID, paymentDate := Some(currentYearMonth))
  {
    var ms := [CashSet("-", SubscriptionPrice), RoleSet("PAID"), PaymentDateSet(currentYearMonth)];
    var u1 := Apply(u, ms[0]);
    var u2 := Apply(u1, ms[1]);
    assert ms[1..][1..] == [ms[2]];
    assert ApplyAll(u2, [ms[2]]) == Apply(u2, ms[2]);
  }

  /**
   * An account's life in this revision: a fresh sign-up followed by a
   * sign-in with the right password yields a token; after withdrawal the
   * same credentials are refused as a withdrawn account.
   */
  method SignUpSignInWithdraw(encoder: PasswordEncoder, request: SignupRequest,
                              accessToken: (string, Option<int>) -> string)
    returns (signedUp: Result<ApiResponse>, before: Result<string>, after: Result<string>)
    requires encoder.matches(request.password, encoder.encode(request.password))
    ensures signedUp == Ok(CreateResponse(SignUpDoneMsg))
    ensures before == Ok(accessToken(request.email, None))
    ensures after == Err(IllegalArgument(DormantAccountMsg))
  {
    var service := new UserService(encoder);
    signedUp := service.SignUp(request);
    var credentials := SigninRequest(request.email, request.password);
    before := service.SignIn(credentials, accessToken);
    var withdrawn := service.Withdraw(WithdrawRequest(WithdrawPhrase), request.email);
    after := service.SignIn(credentials, accessToken);
  }
}
