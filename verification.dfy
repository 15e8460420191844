/**
 * The email-verification records of Backend/server.js: `POST
 * /api/auth/register` creates a user and a pending verification (code,
 * expiry ten minutes ahead, zero attempts); `POST /api/auth/verify` checks a
 * submitted code against it, counting wrong codes, refusing after ten and
 * after expiry, and deleting the record on success.
 *
 * bcrypt is modelled as the identity: the stored password and code hashes
 * are the secrets themselves and comparing a code is string equality. The
 * random code and the clock (milliseconds) are parameters.
 */
module EmailVerification {
  import opened Results

  /** A row of `users`; `middleName || null` is `None` when it was empty or absent. */
  datatype UserRow = UserRow(id: nat, firstName: string, middleName: Option<string>, lastName: string,
                             passwordHash: string)

  /** A row of `email_verifications`, keyed by user id. */
  datatype Verification = Verification(codeHash: string, expiresAt: int, attempts: nat)

  /** Answers other than success, with the HTTP status each is sent with. */
  datatype AuthError =
    | MissingFields          // 400
    | EmailTaken             // 409
    | UserNotFound           // 404
    | NoVerificationPending  // 409
    | TooManyTries           // 429
    | CodeExpired            // 410
    | InvalidCode            // 401

  function Status(e: AuthError): (code: int)
    ensures 400 <= code < 500
  {
    match e
    case MissingFields => 400
    case EmailTaken => 409
    case UserNotFound => 404
    case NoVerificationPending => 409
    case TooManyTries => 429
    case CodeExpired => 410
    case InvalidCode => 401
  }

  /** Ten minutes in milliseconds: how long a code stays valid. */
  const CodeLifetime: int := 600000

  /** Wrong codes allowed before every further attempt is refused. */
  const MaxAttempts: nat := 10

  /** The `users` and `email_verifications` tables; `users` is keyed by email. */
  datatype AuthTables = AuthTables(users: map<string, UserRow>, nextUserId: nat,
                                   verifications: map<nat, Verification>)

  /** The ids of all users. */
  function UserIds(t: AuthTables): set<nat>
  {
    set e | e in t.users :: t.users[e].id
  }

  /**
   * Auto-increment ids are positive, below the next id and distinct; every
   * verification belongs to an existing user (the foreign key).
   */
  ghost predicate AuthWellFormed(t: AuthTables)
  {
    && t.nextUserId >= 1
    && (forall e :: e in t.users ==> 1 <= t.users[e].id < t.nextUserId)
    && (forall e1, e2 :: e1 in t.users && e2 in t.users && e1 != e2 ==> t.users[e1].id != t.users[e2].id)
    && (forall k :: k in t.verifications ==> k in UserIds(t))
  }

  /**
   * The tables after `POST /api/auth/register` and its answer (the new
   * user's id). `code` is the random six-digit code and `now` the clock.
   */
  function RegisterOutcome(t: AuthTables, email: string, password: string, firstName: string,
                           middleName: string, lastName: string, code: string, now: int)
    : (r: (AuthTables, Result<nat, AuthError>))
    ensures r.1.Failure? ==> r.0 == t
    ensures r.1.Failure? <==> email == "" || password == "" || firstName == "" || lastName == "" || email in t.users
    ensures AuthWellFormed(t) ==> AuthWellFormed(r.0)
  {
    if email == "" || password == "" || firstName == "" || lastName == "" then (t, Failure(MissingFields))
    else if email in t.users then (t, Failure(EmailTaken))
    else
      var id := t.nextUserId;
      var row := UserRow(id, firstName, if middleName == "" then None else Some(middleName), lastName, password);
      var t1 := t.(users := t.users[email := row], nextUserId := id + 1);
      UserIdsInsert(t, email, row);
      (t1.(verifications := t1.verifications[id := Verification(code, now + CodeLifetime, 0)]), Success(id))
  }

  lemma UserIdsInsert(t: AuthTables, email: string, row: UserRow)
    requires email !in t.users
    ensures UserIds(t.(users := t.users[email := row])) == UserIds(t) + {row.id}
  {
    var t1 := t.(users := t.users[email := row]);
    assert t1.users[email].id == row.id;
    forall k | k in UserIds(t)
      ensures k in UserIds(t1)
    {
      var e :| e in t.users && t.users[e].id == k;
      assert t1.users[e] == t.users[e];
    }
  }

  /** The tables after `POST /api/auth/verify` and its answer (the user's id on success). */
  function VerifyOutcome(t: AuthTables, email: string, code: string, now: int)
    : (r: (AuthTables, Result<nat, AuthError>))
    ensures r.0.users == t.users && r.0.nextUserId == t.nextUserId
    ensures r.0.verifications.Keys <= t.verifications.Keys
    ensures AuthWellFormed(t) ==> AuthWellFormed(r.0)
  {
    if email == "" || code == "" then (t, Failure(MissingFields))
    else if email !in t.users then (t, Failure(UserNotFound))
    else
      var id := t.users[email].id;
      if id !in t.verifications then (t, Failure(NoVerificationPending))
      else
        var ev := t.verifications[id];
        if ev.attempts >= MaxAttempts then (t, Failure(TooManyTries))
        else if ev.expiresAt < now then (t, Failure(CodeExpired))
        else if code != ev.codeHash then
          (t.(verifications := t.verifications[id := ev.(attempts := ev.attempts + 1)]), Failure(InvalidCode))
        else
          (t.(verifications := t.verifications - {id}), Success(id))
  }

  /**
   * Every answer of verify, by the state it finds: which error is sent
   * when, and that only a wrong code (one more attempt) and a right code
   * (record deleted) change anything.
   */
  lemma VerifyCases(t: AuthTables, email: string, code: string, now: int)
    requires email != "" && code != "" && email in t.users && t.users[email].id in t.verifications
    ensures var id := t.users[email].id;
            var ev := t.verifications[id];
            var (t', r) := VerifyOutcome(t, email, code, now);
            && (ev.attempts >= MaxAttempts ==> r == Failure(TooManyTries) && t' == t)
            && (ev.attempts < MaxAttempts && ev.expiresAt < now ==> r == Failure(CodeExpired) && t' == t)
            && (ev.attempts < MaxAttempts && ev.expiresAt >= now && code != ev.codeHash ==>
                  && r == Failure(InvalidCode)
                  && t'.verifications == t.verifications[id := Verification(ev.codeHash, ev.expiresAt, ev.attempts + 1)])
            && (ev.attempts < MaxAttempts && ev.expiresAt >= now && code == ev.codeHash ==>
                  && r == Success(id)
                  && t'.verifications == t.verifications - {id})
  {
  }

  /** A request for an unknown email or a user with no pending record changes nothing. */
  lemma VerifyWithoutRecord(t: AuthTables, email: string, code: string, now: int)
    requires email == "" || code == "" || email !in t.users || t.users[email].id !in t.verifications
    ensures VerifyOutcome(t, email, code, now).0 == t
    ensures VerifyOutcome(t, email, code, now).1.Failure?
  {
  }

  /** A wrong code moves one counter by exactly one and touches no other record. */
  lemma WrongCodeCountsOnce(t: AuthTables, email: string, code: string, now: int, k: nat)
    requires VerifyOutcome(t, email, code, now).1 == Failure(InvalidCode)
    ensures var t' := VerifyOutcome(t, email, code, now).0;
            var id := t.users[email].id;
            && t'.verifications.Keys == t.verifications.Keys
            && t'.verifications[id].attempts == t.verifications[id].attempts + 1
            && t'.verifications[id].codeHash == t.verifications[id].codeHash
            && (k in t.verifications && k != id ==> t'.verifications[k] == t.verifications[k])
  {
  }

  /**
   * Registering and then submitting the mailed code before it expires
   * verifies the new user and removes the pending record.
   */
  lemma RegisterThenVerify(t: AuthTables, email: string, password: string, firstName: string,
                           middleName: string, lastName: string, code: string, now: int, later: int)
    requires AuthWellFormed(t)
    requires RegisterOutcome(t, email, password, firstName, middleName, lastName, code, now).1.Success?
    requires code != "" && later <= now + CodeLifetime
    ensures var (t1, r1) := RegisterOutcome(t, email, password, firstName, middleName, lastName, code, now);
            var (t2, r2) := VerifyOutcome(t1, email, code, later);
            && r2 == r1
            && r1.value !in t2.verifications
  {
  }

  /** After the ten minutes the registered code is refused as expired, and nothing changes. */
  lemma RegisteredCodeExpires(t: AuthTables, email: string, password: string, firstName: string,
                              middleName: string, lastName: string, code: string, now: int, later: int, guess: string)
    requires RegisterOutcome(t, email, password, firstName, middleName, lastName, code, now).1.Success?
    requires guess != "" && later > now + CodeLifetime
    ensures var t1 := RegisterOutcome(t, email, password, firstName, middleName, lastName, code, now).0;
            VerifyOutcome(t1, email, guess, later) == (t1, Failure(CodeExpired))
  {
  }

  /**
   * A successful registration leaves exactly one fresh record for the new
   * user: the code, an expiry ten minutes ahead and zero attempts.
   */
  lemma RegisterCreatesRecord(t: AuthTables, email: string, password: string, firstName: string,
                              middleName: string, lastName: string, code: string, now: int)
    requires RegisterOutcome(t, email, password, firstName, middleName, lastName, code, now).1.Success?
    ensures var (t', r) := RegisterOutcome(t, email, password, firstName, middleName, lastName, code, now);
            && r.value == t.nextUserId
            && email in t'.users && t'.users[email].id == r.value
            && t'.verifications == t.verifications[r.value := Verification(code, now + CodeLifetime, 0)]
            && (forall e :: e in t.users ==> e in t'.users && t'.users[e] == t.users[e])
  {
  }

  /** A sequence of verify requests for one email: (code, clock) pairs, answers in order. */
  function VerifyAll(t: AuthTables, email: string, tries: seq<(string, int)>): (r: (AuthTables, seq<Result<nat, AuthError>>))
    ensures |r.1| == |tries|
    decreases |tries|
  {
    if tries == [] then (t, [])
    else
      var (t1, a) := VerifyOutcome(t, email, tries[0].0, tries[0].1);
      var (t2, rest) := VerifyAll(t1, email, tries[1..]);
      (t2, [a] + rest)
  }

  /** The number of `InvalidCode` answers among `answers`. */
  function WrongCount(answers: seq<Result<nat, AuthError>>): nat
    decreases |answers|
  {
    if answers == [] then 0
    else (if answers[0] == Failure(InvalidCode) then 1 else 0) + WrongCount(answers[1..])
  }

  /**
   * The wrong codes the email's pending record still accepts: 10 minus the
   * attempts used, and none when there is no record or it is exhausted.
   */
  function AttemptsLeft(t: AuthTables, email: string): (n: nat)
    ensures n <= MaxAttempts
  {
    if email in t.users && t.users[email].id in t.verifications
       && t.verifications[t.users[email].id].attempts < MaxAttempts
    then MaxAttempts - t.verifications[t.users[email].id].attempts
    else 0
  }

  /**
   * Guessing is bounded: however many verify requests are made for one
   * email, at most as many as its record has attempts left are answered
   * "invalid code", so a fresh record admits at most ten wrong guesses.
   */
  lemma {:induction false} WrongGuessesBounded(t: AuthTables, email: string, tries: seq<(string, int)>)
    ensures WrongCount(VerifyAll(t, email, tries).1) <= AttemptsLeft(t, email)
    decreases |tries|
  {
    if tries != [] {
      var (t1, a) := VerifyOutcome(t, email, tries[0].0, tries[0].1);
      var (t2, rest) := VerifyAll(t1, email, tries[1..]);
      VerifyUsesAttempt(t, email, tries[0].0, tries[0].1);
      WrongGuessesBounded(t1, email, tries[1..]);
      assert VerifyAll(t, email, tries).1 == [a] + rest;
      assert ([a] + rest)[1..] == rest;
    }
  }

  /**
   * A wrong-code answer uses up exactly one attempt of the email's record;
   * any other answer uses none (or removes the record).
   */
  lemma VerifyUsesAttempt(t: AuthTables, email: string, code: string, now: int)
    ensures var (t', r) := VerifyOutcome(t, email, code, now);
            && (r == Failure(InvalidCode) ==> AttemptsLeft(t', email) + 1 == AttemptsLeft(t, email))
            && (r != Failure(InvalidCode) ==> AttemptsLeft(t', email) <= AttemptsLeft(t, email))
  {
  }

  /** The two tables as mutable state, with one method per handler. */
  class Accounts {
    var users: map<string, UserRow>
    var nextUserId: nat
    var verifications: map<nat, Verification>

    function Snapshot(): AuthTables
      reads this
    {
      AuthTables(users, nextUserId, verifications)
    }

    constructor ()
      ensures Snapshot() == AuthTables(map[], 1, map[])
      ensures AuthWellFormed(Snapshot())
    {
      users, nextUserId, verifications := map[], 1, map[];
    }

    /** `POST /api/auth/register`, statement by statement; the mail is left out. */
    method Register(email: string, password: string, firstName: string, middleName: string, lastName: string,
                    code: string, now: int) returns (r: Result<nat, AuthError>)
      modifies this
      ensures (Snapshot(), r) == RegisterOutcome(old(Snapshot()), email, password, firstName, middleName, lastName, code, now)
    {
      if email == "" || password == "" || firstName == "" || lastName == "" {
        return Failure(MissingFields);
      }
      if email in users {
        return Failure(EmailTaken);
      }
      var id := nextUserId;
      users := users[email := UserRow(id, firstName, if middleName == "" then None else Some(middleName), lastName, password)];
      nextUserId := nextUserId + 1;
      var userId := users[email].id;
      var expires := now + CodeLifetime;
      verifications := verifications[userId := Verification(code, expires, 0)];
      r := Success(userId);
    }

    /** `POST /api/auth/verify`, statement by statement; the token is left out. */
    method Verify(email: string, code: string, now: int) returns (r: Result<nat, AuthError>)
      modifies this
      ensures (Snapshot(), r) == VerifyOutcome(old(Snapshot()), email, code, now)
    {
      if email == "" || code == "" {
        return Failure(MissingFields);
      }
      if email !in users {
        return Failure(UserNotFound);
      }
      var id := users[email].id;
      if id !in verifications {
        return Failure(NoVerificationPending);
      }
      var ev := verifications[id];
      if ev.attempts >= MaxAttempts {
        return Failure(TooManyTries);
      }
      if ev.expiresAt < now {
        return Failure(CodeExpired);
      }
      if code != ev.codeHash {
        verifications := verifications[id := verifications[id].(attempts := verifications[id].attempts + 1)];
        return Failure(InvalidCode);
      }
      verifications := verifications - {id};
      r := Success(id);
    }
  }
}
