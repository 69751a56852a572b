# Lotto user accounts, modelled in Dafny

This project models the account core of the Lotto ("sixnumber") service. That core is the `User` entity and the `UserService` that drives it. The service covers sign-up, sign-in, withdrawal, switching the paid subscription on and off, the cash query and charge requests.

- `java_lang.dfy`, module `JavaLang`: Java `int` as `Int32`, with explicit two's-complement wrap-around (`Wrap32`). It also holds nullable references (`Option`) and the thrown exceptions (`Result`, `Outcome`).
- `user.dfy`, module `Users`:
  - the class `User`, with the entity's fields and one method per setter;
  - `UserState`, the value of all its fields;
  - `Apply`, the effect of one setter call on that value, and `ApplyAll`, the effect of a sequence of calls.
  Each method is proved to move `State()` exactly as `Apply` says. The lemmas about `ApplyAll` state what holds over any sequence of calls: the statement is append-only, no setter except `setAdmin` grants ADMIN, and untouched fields keep their values.
- `user_service.dfy`, module `Services`: the class `UserService`.
  - Its user repository is a map from email to the stored `User` object. Changing that object is how a change is persisted.
  - Its charge repository is a sequence of saved records.
  - `Valid()` is the repository's uniqueness invariant: each user is stored under its own email, and nicknames are distinct.
  - Every mutating operation keeps `Valid()` and keeps all balances non-negative.

## Model

| member | source | states |
|---|---|---|
| JavaLang.Wrap32 | Java/src/main/java/com/example/sixnumber/user/entity/User.java:88-93 | The result is the one 32-bit value congruent to the exact result modulo 2^32, and equals it when it fits |
| Users.CashAfter | Java/src/main/java/com/example/sixnumber/user/entity/User.java:88-93 | "+" raises cash by exactly the amount and "-" lowers it by exactly the amount, whenever the result fits in an int; otherwise both wrap modulo 2^32. Any other sign leaves cash unchanged |
| Users.RoleAfter | Java/src/main/java/com/example/sixnumber/user/entity/User.java:94-99 | "USER" gives ROLE_USER and "PAID" gives ROLE_PAID; any other name leaves the role unchanged, so the result is ADMIN only if the role already was |
| Users.StatusAfter | Java/src/main/java/com/example/sixnumber/user/entity/User.java:105-111 | Exactly "ACTIVE", "SUSPENDED" and "DORMANT" set the matching status; any other string leaves it unchanged |
| Users.ChargingCountAfter | Java/src/main/java/com/example/sixnumber/user/entity/User.java:121-124 | 0 resets the counter to 0; any other number is added to it (exactly, when the sum fits in an int) |
| Users.Touches | Java/src/main/java/com/example/sixnumber/user/entity/User.java:79-128 | Every setter writes exactly one field, except update, which writes three; no setter writes the id |
| Users.Apply | Java/src/main/java/com/example/sixnumber/user/entity/User.java:79-128 | One setter call leaves every field outside its Touches set unchanged; the statement only grows, by one entry exactly for setStatement |
| Users.UntouchedFieldKept | Java/src/main/java/com/example/sixnumber/user/entity/User.java:79-128 | A field that no call in a sequence of setter calls writes has the same value after all of them |
| Users.StatementIsAppendOnly | Java/src/main/java/com/example/sixnumber/user/entity/User.java:117-119 | After any sequence of setter calls, the statement is the old statement followed by exactly the appended entries, in call order |
| Users.AdminOnlyBySetAdmin | Java/src/main/java/com/example/sixnumber/user/entity/User.java:94-103 | A non-admin user stays non-admin through any sequence of setter calls that does not include setAdmin |
| Users.CountFrom | Java/src/main/java/com/example/sixnumber/user/entity/User.java:121-124 | n calls of setChargingCount(1) add exactly n to a non-negative counter that stays in range |
| Users.ResetThenCount | Java/src/main/java/com/example/sixnumber/user/entity/User.java:121-124 | A reset followed by n calls of setChargingCount(1) leaves the counter at exactly n |
| Users.User.constructor | Java/src/main/java/com/example/sixnumber/user/entity/User.java:68-77 | A new user has the given email, encoded password and nickname, ROLE_USER, ACTIVE, cash 1000, an empty statement and chargingCount 0; no id, payment date or withdrawal date yet |
| Users.User.Update | Java/src/main/java/com/example/sixnumber/user/entity/User.java:79-83 | With at least three elements, sets email, password and nickname from indices 0, 1 and 2. A shorter list throws IndexOutOfBounds at index = its length, after the leading fields are assigned. Cash, role, status and statement never change |
| Users.User.SetPaymentDate | Java/src/main/java/com/example/sixnumber/user/entity/User.java:85-87 | Sets paymentDate and nothing else |
| Users.User.SetCash | Java/src/main/java/com/example/sixnumber/user/entity/User.java:88-93 | Changes cash as CashAfter says and nothing else |
| Users.User.SetRole | Java/src/main/java/com/example/sixnumber/user/entity/User.java:94-99 | Changes the role as RoleAfter says and nothing else |
| Users.User.SetAdmin | Java/src/main/java/com/example/sixnumber/user/entity/User.java:101-103 | Sets the role to ROLE_ADMIN and nothing else |
| Users.User.SetStatus | Java/src/main/java/com/example/sixnumber/user/entity/User.java:105-111 | Changes the status as StatusAfter says and nothing else |
| Users.User.SetWithdrawExpiration | Java/src/main/java/com/example/sixnumber/user/entity/User.java:113-115 | Sets withdrawExpiration (possibly to null) and nothing else |
| Users.User.SetStatement | Java/src/main/java/com/example/sixnumber/user/entity/User.java:117-119 | Appends the entry at the end of the statement and changes nothing else |
| Users.User.SetChargingCount | Java/src/main/java/com/example/sixnumber/user/entity/User.java:121-124 | Changes chargingCount as ChargingCountAfter says and nothing else |
| Users.User.SetNickname | Java/src/main/java/com/example/sixnumber/user/entity/User.java:126-128 | Sets the nickname and nothing else |
| Users.User.GetUsername | Java/src/main/java/com/example/sixnumber/user/entity/User.java:144-147 | The username is the email |
| Services.UserService.constructor | src/main/java/com/example/sixnumber/user/service/UserService.java:25-33 | The service starts with empty repositories that satisfy the uniqueness invariant |
| Services.UserService.FindByUser | src/main/java/com/example/sixnumber/user/service/UserService.java:102-105 | Returns the user stored under the email when there is one; otherwise throws the shared bad-credentials error |
| Services.UserService.SignUp | src/main/java/com/example/sixnumber/user/service/UserService.java:35-47 | A taken email fails first, then a taken nickname; either failure saves nothing. Success holds exactly when both are free: one fresh user is added under the email, with the encoded password and the constructor's defaults. Existing users are unchanged, the 201 create response is returned, and the uniqueness invariant is kept |
| Services.UserService.SignIn | src/main/java/com/example/sixnumber/user/service/UserService.java:49-59 | An unknown email fails first, then a DORMANT account, then a password mismatch; unknown email and wrong password give the same error. A token for the user's email and id is returned exactly when all three checks pass, so a SUSPENDED account can sign in |
| Services.UserService.Withdraw | src/main/java/com/example/sixnumber/user/service/UserService.java:63-72 | Any message other than the exact phrase fails before the lookup. With the phrase, an unknown email fails. Otherwise the user's status becomes DORMANT and nothing else changes. No other user changes in any case |
| Services.UserService.SetPaid | src/main/java/com/example/sixnumber/user/service/UserService.java:74-90 | An unknown email fails in both modes. Subscribe mode: cash below 5000 fails with no change; otherwise cash drops by exactly 5000 (staying non-negative), the role becomes PAID and paymentDate becomes the current year-month. Cancel mode: only paymentDate changes, to the request's message. No other user changes |
| Services.UserService.GetCash | src/main/java/com/example/sixnumber/user/service/UserService.java:92-94 | Returns the user's cash and changes nothing |
| Services.UserService.Charging | src/main/java/com/example/sixnumber/user/service/UserService.java:96-100 | Appends exactly one charge record for the given user id; the user repository and every user are unchanged |
| Services.SubscribeBySetters | src/main/java/com/example/sixnumber/user/service/UserService.java:77-83 | Subscribe mode equals the three setter calls in order: debit 5000, set role PAID, set paymentDate |
| Services.SignUpSignInWithdraw | src/main/java/com/example/sixnumber/user/service/UserService.java:35-72 | A fresh sign-up returns the create response, and a sign-in with the right password then yields the token. After withdrawal, the same credentials are refused as a withdrawn account |

## Left out

- Persistence: JPA annotations, `@Transactional` rollback and id generation are not modelled. A saved user keeps the id it was constructed with (none); `setId` (Java/src/main/java/com/example/sixnumber/user/entity/User.java:130-133) is test-only code.
- The password encoder is a pair of functions given to the service, and the JWT access-token issuer is a function parameter. Their algorithms are not modelled.
- `YearMonth.now()` is the clock: the formatted current year-month is passed to `SetPaid` as a string.
- `Cash`, `CashRepository`, `ChargingRequest` and `ApiResponse` are not part of this model. A charge record is modelled as the pair (user id, request), and the request as (cash, message), the two fields of the charge form. The response codes (201 for create, 200 for ok) come from the service's test expectations.
- `logout` (src/main/java/com/example/sixnumber/user/service/UserService.java:61) has an empty body in this revision, so there is nothing to model.
- The `UserDetails` overrides other than `getUsername` (Java/src/main/java/com/example/sixnumber/user/entity/User.java:135-142, Java/src/main/java/com/example/sixnumber/user/entity/User.java:149-167) belong to Spring Security only.
- Java nulls inside arguments are not modelled: a null string passed to a `switch` throws NullPointerException in Java, and every string here is non-null. The nullable `paymentDate`, `withdrawExpiration`, `id` and `setPaid` request are modelled with `Option`.
- This revision of UserService.java lacks several behaviours that the service's test file (src/test/java/com/example/sixnumber/user/service/UserServiceTest.java) expects from a later revision, so the model lacks them too: Redis sessions and session conflicts at sign-in, rejection of SUSPENDED accounts at sign-in, reactivation of DORMANT accounts at sign-up, setting withdrawExpiration on withdrawal, charge throttling and duplicate detection, and the statement and charge-list queries. The model follows this revision's code: `Withdraw` leaves withdrawExpiration as it was, so a DORMANT account need not have one.
- Concurrency between requests is not modelled; each operation runs as one atomic step.
