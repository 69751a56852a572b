/**
 * The `User` entity of the lottery service: an account record whose fields
 * are changed in place by one setter each. The string-keyed setters
 * (`setCash`, `setRole`, `setStatus`) silently ignore keys they do not know.
 *
 * `UserState` is the value of all the fields at one moment, `Apply` says
 * what each setter does to it, and the class `User` holds the mutable
 * fields; every method of the class is proved to move its `State()` exactly
 * as `Apply` says.
 */
module Users {
  import opened JavaLang

  datatype UserRole = ROLE_USER | ROLE_PAID | ROLE_ADMIN

  datatype Status = ACTIVE | SUSPENDED | DORMANT

  /** A `java.time.LocalDate`. */
  datatype LocalDate = LocalDate(year: int, month: int, day: int)

  /** The sign-up form: the credentials and display name a user chooses. */
  datatype SignupRequest = SignupRequest(email: string, password: string, nickname: string)

  /** The cash every new account starts with. */
  const InitialCash: Int32 := 1000

  /** All fields of a `User` at one moment. */
  datatype UserState = UserState(
    id: Option<int>,
    email: string,
    password: string,
    nickname: string,
    cash: Int32,
    role: UserRole,
    status: Status,
    paymentDate: Option<string>,
    withdrawExpiration: Option<LocalDate>,
    statement: seq<string>,
    chargingCount: Int32)

  /** The names of those fields. */
  datatype Field =
    | IdField | EmailField | PasswordField | NicknameField | CashField | RoleField
    | StatusField | PaymentDateField | WithdrawExpirationField | StatementField
    | ChargingCountField

  /** `u` and `v` hold the same value in field `f`. */
  predicate Agree(u: UserState, v: UserState, f: Field)
  {
    match f
    case IdField => u.id == v.id
    case EmailField => u.email == v.email
    case PasswordField => u.password == v.password
    case NicknameField => u.nickname == v.nickname
    case CashField => u.cash == v.cash
    case RoleField => u.role == v.role
    case StatusField => u.status == v.status
    case PaymentDateField => u.paymentDate == v.paymentDate
    case WithdrawExpirationField => u.withdrawExpiration == v.withdrawExpiration
    case StatementField => u.statement == v.statement
    case ChargingCountField => u.chargingCount == v.chargingCount
  }

  /** One call of a `User` setter, with its arguments. */
  datatype Mutation =
    | CredentialsUpdate(list: seq<string>)            // update(list)
    | PaymentDateSet(yearMonth: string)               // setPaymentDate
    | CashSet(sign: string, amount: Int32)            // setCash
    | RoleSet(roleName: string)                       // setRole
    | AdminGranted                                    // setAdmin
    | StatusSet(statusName: string)                   // setStatus
    | WithdrawExpirationSet(date: Option<LocalDate>)  // setWithdrawExpiration
    | StatementAppended(entry: string)                // setStatement
    | ChargingCountSet(num: Int32)                    // setChargingCount
    | NicknameSet(newNickname: string)                // setNickname

  /** The state of a freshly constructed user. */
  function Registered(request: SignupRequest, password: string): UserState
  {
    UserState(None, request.email, password, request.nickname, InitialCash,
              ROLE_USER, ACTIVE, None, None, [], 0)
  }

  /** `setCash`: "+" credits, "-" debits, any other sign is ignored. */
  function CashAfter(cash: Int32, sign: string, amount: Int32): (r: Int32)
    ensures sign == "+" && InInt32(cash + amount) ==> r == cash + amount
    ensures sign == "-" && InInt32(cash - amount) ==> r == cash - amount
    ensures sign == "+" ==> (cash + amount - r) % Modulus == 0
    ensures sign == "-" ==> (cash - amount - r) % Modulus == 0
    ensures sign != "+" && sign != "-" ==> r == cash
  {
    if sign == "+" then Wrap32(cash + amount)
    else if sign == "-" then Wrap32(cash - amount)
    else cash
  }

  /** `setRole`: only "USER" and "PAID" are recognised. */
  function RoleAfter(role: UserRole, name: string): (r: UserRole)
    ensures name == "USER" ==> r == ROLE_USER
    ensures name == "PAID" ==> r == ROLE_PAID
    ensures name != "USER" && name != "PAID" ==> r == role
    ensures r == ROLE_ADMIN ==> role == ROLE_ADMIN
  {
    if name == "USER" then ROLE_USER
    else if name == "PAID" then ROLE_PAID
    else role
  }

  /** `setStatus`: exactly the three status names are recognised. */
  function StatusAfter(status: Status, name: string): (r: Status)
    ensures name == "ACTIVE" ==> r == ACTIVE
    ensures name == "SUSPENDED" ==> r == SUSPENDED
    ensures name == "DORMANT" ==> r == DORMANT
    ensures name != "ACTIVE" && name != "SUSPENDED" && name != "DORMANT" ==> r == status
  {
    if name == "ACTIVE" then ACTIVE
    else if name == "SUSPENDED" then SUSPENDED
    else if name == "DORMANT" then DORMANT
    else status
  }

  /** `setChargingCount`: 0 resets the counter, anything else is added to it. */
  function ChargingCountAfter(count: Int32, num: Int32): (r: Int32)
    ensures num == 0 ==> r == 0
    ensures num != 0 && InInt32(count + num) ==> r == count + num
    ensures num != 0 ==> (count + num - r) % Modulus == 0
  {
    if num == 0 then 0 else Wrap32(count + num)
  }

  /** The fields a setter may write. */
  function Touches(m: Mutation): (fs: set<Field>)
    ensures IdField !in fs
    ensures |fs| == if m.CredentialsUpdate? then 3 else 1
  {
    match m
    case CredentialsUpdate(_) => {EmailField, PasswordField, NicknameField}
    case PaymentDateSet(_) => {PaymentDateField}
    case CashSet(_, _) => {CashField}
    case RoleSet(_) => {RoleField}
    case AdminGranted => {RoleField}
    case StatusSet(_) => {StatusField}
    case WithdrawExpirationSet(_) => {WithdrawExpirationField}
    case StatementAppended(_) => {StatementField}
    case ChargingCountSet(_) => {ChargingCountField}
    case NicknameSet(_) => {NicknameField}
  }

  /**
   * The effect of one setter call. `update(list)` reads indices 0, 1, 2 in
   * turn and assigns each as it goes, so a list shorter than three has
   * already overwritten its leading fields when `list.get` throws.
   */
  function Apply(u: UserState, m: Mutation): (r: UserState)
    ensures forall f :: f !in Touches(m) ==> Agree(u, r, f)
    ensures |r.statement| == |u.statement| + (if m.StatementAppended? then 1 else 0)
    ensures u.statement <= r.statement
  {
    match m
    case CredentialsUpdate(list) =>
      u.(email := if |list| > 0 then list[0] else u.email,
         password := if |list| > 1 then list[1] else u.password,
         nickname := if |list| > 2 then list[2] else u.nickname)
    case PaymentDateSet(yearMonth) => u.(paymentDate := Some(yearMonth))
    case CashSet(sign, amount) => u.(cash := CashAfter(u.cash, sign, amount))
    case RoleSet(name) => u.(role := RoleAfter(u.role, name))
    case AdminGranted => u.(role := ROLE_ADMIN)
    case StatusSet(name) => u.(status := StatusAfter(u.status, name))
    case WithdrawExpirationSet(date) => u.(withdrawExpiration := date)
    case StatementAppended(entry) => u.(statement := u.statement + [entry])
    case ChargingCountSet(num) => u.(chargingCount := ChargingCountAfter(u.chargingCount, num))
    case NicknameSet(nickname) => u.(nickname := nickname)
  }

  /** The effect of a sequence of setter calls, first to last. */
  function ApplyAll(u: UserState, ms: seq<Mutation>): UserState
    decreases |ms|
  {
    if ms == [] then u else ApplyAll(Apply(u, ms[0]), ms[1..])
  }

  /** The entries `setStatement` calls in `ms` append, in call order. */
  function Appended(ms: seq<Mutation>): seq<string>
    decreases |ms|
  {
    if ms == [] then []
    else (if ms[0].StatementAppended? then [ms[0].entry] else []) + Appended(ms[1..])
  }

  /** A field that no call in `ms` writes keeps its value across all of them. */
  lemma {:induction false} UntouchedFieldKept(u: UserState, ms: seq<Mutation>, f: Field)
    requires forall i :: 0 <= i < |ms| ==> f !in Touches(ms[i])
    ensures Agree(u, ApplyAll(u, ms), f)
    decreases |ms|
  {
    if ms != [] {
      var v := Apply(u, ms[0]);
      assert Agree(u, v, f);
      UntouchedFieldKept(v, ms[1..], f);
      assert Agree(v, ApplyAll(v, ms[1..]), f);
    }
  }

  /**
   * The statement is an append-only ledger: after any sequence of setter
   * calls it is the old statement followed by exactly the appended entries.
   */
  lemma {:induction false} StatementIsAppendOnly(u: UserState, ms: seq<Mutation>)
    ensures ApplyAll(u, ms).statement == u.statement + Appended(ms)
    decreases |ms|
  {
    if ms == [] {
      assert u.statement + [] == u.statement;
    } else {
      var v := Apply(u, ms[0]);
      var head := if ms[0].StatementAppended? then [ms[0].entry] else [];
      if ms[0].StatementAppended? {
        assert v.statement == u.statement + head;
      } else {
        assert StatementField !in Touches(ms[0]);
        assert Agree(u, v, StatementField);
        assert v.statement == u.statement + head;
      }
      StatementIsAppendOnly(v, ms[1..]);
      assert Appended(ms) == head + Appended(ms[1..]);
      assert ApplyAll(u, ms).statement == (u.statement + head) + Appended(ms[1..]);
      assert (u.statement + head) + Appended(ms[1..]) == u.statement + (head + Appended(ms[1..]));
    }
  }

  /** No sequence of setter calls makes a user ADMIN unless one of them is `setAdmin`. */
  lemma {:induction false} AdminOnlyBySetAdmin(u: UserState, ms: seq<Mutation>)
    requires u.role != ROLE_ADMIN
    requires AdminGranted !in ms
    ensures ApplyAll(u, ms).role != ROLE_ADMIN
    decreases |ms|
  {
    if ms != [] {
      assert ms[0] != AdminGranted;
      assert AdminGranted !in ms[1..] by { assert ms == [ms[0]] + ms[1..]; }
      AdminOnlyBySetAdmin(Apply(u, ms[0]), ms[1..]);
    }
  }

  /**
   * A charging counter that is reset and then bumped by `n` positive calls
   * of `setChargingCount(1)` reads exactly `n`.
   */
  lemma {:induction false} ResetThenCount(u: UserState, n: nat)
    requires n <= MaxInt
    ensures ApplyAll(u, [ChargingCountSet(0)] + seq(n, _ => ChargingCountSet(1))).chargingCount == n
  {
    var ms := [ChargingCountSet(0)] + seq(n, _ => ChargingCountSet(1));
    assert ms[1..] == seq(n, _ => ChargingCountSet(1));
    CountFrom(Apply(u, ChargingCountSet(0)), n);
  }

  /** `n` calls of `setChargingCount(1)` add `n` to a counter that stays in range. */
  lemma {:induction false} CountFrom(u: UserState, n: nat)
    requires u.chargingCount >= 0 && u.chargingCount + n <= MaxInt
    ensures ApplyAll(u, seq(n, _ => ChargingCountSet(1))).chargingCount == u.chargingCount + n
    decreases n
  {
    var ms := seq(n, _ => ChargingCountSet(1));
    if n > 0 {
      assert ms[0] == ChargingCountSet(1);
      assert ms[1..] == seq(n - 1, _ => ChargingCountSet(1));
      CountFrom(Apply(u, ms[0]), n - 1);
    }
  }

  /** The `User` entity: one object per account, updated in place. */
  class User {
    var id: Option<int>
    var email: string
    var password: string
    var nickname: string
    var cash: Int32
    var role: UserRole
    var status: Status
    var paymentDate: Option<string>
    var withdrawExpiration: Option<LocalDate>
    var statement: seq<string>
    var chargingCount: Int32

    /** The current value of all fields. */
    function State(): UserState
      reads this
    {
      UserState(id, email, password, nickname, cash, role, status, paymentDate,
                withdrawExpiration, statement, chargingCount)
    }

    /** `User(SignupRequest, String)`: `password` is the already encoded password. */
    constructor (request: SignupRequest, password: string)
      ensures State() == Registered(request, password)
      ensures email == request.email && this.password == password && nickname == request.nickname
      ensures role == ROLE_USER && status == ACTIVE && cash == 1000
      ensures statement == [] && chargingCount == 0
    {
      id := None;
      email := request.email;
      this.password := password;
      nickname := request.nickname;
      role := ROLE_USER;
      status := ACTIVE;
      cash := InitialCash;
      paymentDate := None;
      withdrawExpiration := None;
      statement := [];
      chargingCount := 0;
    }

    /** `update(list)`: email, password and nickname from indices 0, 1 and 2. */
    method Update(list: seq<string>) returns (r: Outcome)
      modifies this
      ensures State() == Apply(old(State()), CredentialsUpdate(list))
      ensures r == if |list| >= 3 then Pass else Fail(IndexOutOfBounds(|list|))
      ensures |list| >= 3 ==> email == list[0] && password == list[1] && nickname == list[2]
      ensures cash == old(cash) && role == old(role) && status == old(status)
      ensures statement == old(statement)
    {
      if |list| == 0 {
        return Fail(IndexOutOfBounds(0));
      }
      email := list[0];
      if |list| == 1 {
        return Fail(IndexOutOfBounds(1));
      }
      password := list[1];
      if |list| == 2 {
        return Fail(IndexOutOfBounds(2));
      }
      nickname := list[2];
      r := Pass;
    }

    method SetPaymentDate(yearMonth: string)
      modifies this
      ensures State() == Apply(old(State()), PaymentDateSet(yearMonth))
      ensures paymentDate == Some(yearMonth)
    {
      paymentDate := Some(yearMonth);
    }

    method SetCash(sign: string, amount: Int32)
      modifies this
      ensures State() == Apply(old(State()), CashSet(sign, amount))
      ensures cash == CashAfter(old(cash), sign, amount)
    {
      if sign == "+" {
        cash := Wrap32(cash + amount);
      } else if sign == "-" {
        cash := Wrap32(cash - amount);
      }
    }

    method SetRole(roleName: string)
      modifies this
      ensures State() == Apply(old(State()), RoleSet(roleName))
      ensures role == RoleAfter(old(role), roleName)
    {
      if roleName == "USER" {
        role := ROLE_USER;
      } else if roleName == "PAID" {
        role := ROLE_PAID;
      }
    }

    method SetAdmin()
      modifies this
      ensures State() == Apply(old(State()), AdminGranted)
      ensures role == ROLE_ADMIN
    {
      role := ROLE_ADMIN;
    }

    method SetStatus(statusName: string)
      modifies this
      ensures State() == Apply(old(State()), StatusSet(statusName))
      ensures status == StatusAfter(old(status), statusName)
    {
      if statusName == "ACTIVE" {
        status := ACTIVE;
      } else if statusName == "SUSPENDED" {
        status := SUSPENDED;
      } else if statusName == "DORMANT" {
        status := DORMANT;
      }
    }

    method SetWithdrawExpiration(date: Option<LocalDate>)
      modifies this
      ensures State() == Apply(old(State()), WithdrawExpirationSet(date))
      ensures withdrawExpiration == date
    {
      withdrawExpiration := date;
    }

    /** `setStatement(str)`: appends one ledger entry. */
    method SetStatement(entry: string)
      modifies this
      ensures State() == Apply(old(State()), StatementAppended(entry))
      ensures statement == old(statement) + [entry]
    {
      statement := statement + [entry];
    }

    method SetChargingCount(num: Int32)
      modifies this
      ensures State() == Apply(old(State()), ChargingCountSet(num))
      ensures chargingCount == ChargingCountAfter(old(chargingCount), num)
    {
      if num == 0 {
        chargingCount := 0;
      } else {
        chargingCount := Wrap32(chargingCount + num);
      }
    }

    method SetNickname(newNickname: string)
      modifies this
      ensures State() == Apply(old(State()), NicknameSet(newNickname))
      ensures nickname == newNickname
    {
      nickname := newNickname;
    }

    /** `getUsername()`: the login name Spring Security sees is the email. */
    function GetUsername(): (r: string)
      reads this
      ensures r == State().email
    {
      email
    }
  }
}
