/*
 * The signup API route frontend/pages/api/auth/signup.js: a method guard, a
 * per-IP fixed-window rate limiter held in the module-level `signupAttempts`
 * dictionary, field, e-mail and password checks, and the creation of the
 * user unless one with the normalised e-mail exists.
 *
 * `Date.now()` is the parameter `now`; validator.isEmail is `isEmail`;
 * bcrypt.hash is `hash`; whether the Prisma calls succeed is `dbUp`.
 */
module SignupApi {
  import opened Common

  const MAX_REQUESTS: nat := 5
  const WINDOW_MS: int := 15 * 60 * 1000

  const METHOD_NOT_ALLOWED: string := "Method not allowed"
  const TOO_MANY_ATTEMPTS: string := "Too many signup attempts, please try again later."
  const FIELDS_REQUIRED: string := "All fields are required"
  const INVALID_EMAIL: string := "Invalid email format"
  const WEAK_PASSWORD: string := "Password must be at least 8 characters and include a digit."
  const USER_EXISTS: string := "User already exists"
  const USER_CREATED: string := "User created successfully"
  const INTERNAL_ERROR: string := "Internal Server Error"

  /** One entry of `signupAttempts`. */
  datatype Attempt = Attempt(count: nat, expires: int)

  /** A stored user: the name and the password hash. */
  datatype UserRow = UserRow(name: string, passwordHash: string)

  /** The parts of the request the handler reads; None is a missing value. */
  datatype Request = Request(
    httpMethod: string,
    forwardedFor: Option<string>,   // headers["x-forwarded-for"]
    remoteAddress: Option<string>,  // socket.remoteAddress
    email: Option<string>,
    password: Option<string>,
    name: Option<string>)

  datatype Response = Response(status: int, message: string)

  datatype SignupResult = SignupResult(response: Response, attempts: map<string, Attempt>, users: map<string, UserRow>)

  /** The key the limiter counts under. */
  function ClientIp(req: Request): string
  {
    OrStr(req.forwardedFor, OrStr(req.remoteAddress, "unknown"))
  }

  /** The entry for `ip` after this request is counted: a fresh window when
      there is none or it has expired, then one more attempt. */
  function Counted(attempts: map<string, Attempt>, ip: string, now: int): (e: Attempt)
    requires now > 0
    ensures ip !in attempts || attempts[ip].expires < now ==> e == Attempt(1, now + WINDOW_MS)
    ensures ip in attempts && attempts[ip].expires >= now ==> e == attempts[ip].(count := attempts[ip].count + 1)
  {
    var current := if ip in attempts then attempts[ip] else Attempt(0, 0);
    var current' := if current.expires < now then Attempt(0, now + WINDOW_MS) else current;
    current'.(count := current'.count + 1)
  }

  /** `password.length` counts UTF-16 code units. */
  function Utf16Length(s: string): nat
  {
    if s == [] then 0 else (if s[0] as int > 0xFFFF then 2 else 1) + Utf16Length(s[1..])
  }

  predicate IsDigit(c: char) { '0' <= c <= '9' }

  /** At least 8 characters and a digit (`/\d/` matches ASCII digits only). */
  predicate StrongPassword(p: string)
  {
    Utf16Length(p) >= 8 && exists i :: 0 <= i < |p| && IsDigit(p[i])
  }

  /** `email.toLowerCase().trim()`. */
  function NormaliseEmail(email: string): string
  {
    Trim(ToLower(email))
  }

  /** `!email || !password || !name`: a field is missing or empty. */
  predicate MissingField(req: Request)
  {
    req.email.None? || req.email.value == [] || req.password.None? || req.password.value == []
    || req.name.None? || req.name.value == []
  }

  /** The part of the handler inside its `try`, once the limiter let the
      request through. */
  function Register(users: map<string, UserRow>, req: Request, isEmail: string -> bool,
                    hash: string -> string, dbUp: bool): (Response, map<string, UserRow>)
  {
    if MissingField(req) then (Response(400, FIELDS_REQUIRED), users)
    else
      var email := NormaliseEmail(req.email.value);
      if !isEmail(email) then (Response(400, INVALID_EMAIL), users)
      else if !StrongPassword(req.password.value) then (Response(400, WEAK_PASSWORD), users)
      else if !dbUp then (Response(500, INTERNAL_ERROR), users)
      else if email in users then (Response(400, USER_EXISTS), users)
      else (Response(201, USER_CREATED), users[email := UserRow(req.name.value, hash(req.password.value))])
  }

  /** The whole handler. */
  function Signup(attempts: map<string, Attempt>, users: map<string, UserRow>, req: Request, now: int,
                  isEmail: string -> bool, hash: string -> string, dbUp: bool): SignupResult
    requires now > 0
  {
    if req.httpMethod != "POST" then SignupResult(Response(405, METHOD_NOT_ALLOWED), attempts, users)
    else
      var ip := ClientIp(req);
      var entry := Counted(attempts, ip, now);
      var attempts' := attempts[ip := entry];
      if entry.count > MAX_REQUESTS then SignupResult(Response(429, TOO_MANY_ATTEMPTS), attempts', users)
      else
        var (response, users') := Register(users, req, isEmail, hash, dbUp);
        SignupResult(response, attempts', users')
  }

  class SignupHandler {
    var signupAttempts: map<string, Attempt>
    var users: map<string, UserRow>

    constructor (initialUsers: map<string, UserRow>)
      ensures signupAttempts == map[] && users == initialUsers
    {
      signupAttempts := map[];
      users := initialUsers;
    }

    /** `handler(req, res)`; `Date.now()` is positive. */
    method Handle(req: Request, now: int, isEmail: string -> bool, hash: string -> string, dbUp: bool)
      returns (response: Response)
      requires now > 0
      modifies this
      ensures SignupResult(response, signupAttempts, users)
              == Signup(old(signupAttempts), old(users), req, now, isEmail, hash, dbUp)
    {
      if req.httpMethod != "POST" {
        return Response(405, METHOD_NOT_ALLOWED);
      }
      var ip := ClientIp(req);
      var attemptInfo := if ip in signupAttempts then signupAttempts[ip] else Attempt(0, 0);
      if attemptInfo.expires < now {
        signupAttempts := signupAttempts[ip := Attempt(0, now + WINDOW_MS)];
      }
      var entry := signupAttempts[ip];
      signupAttempts := signupAttempts[ip := entry.(count := entry.count + 1)];
      if signupAttempts[ip].count > MAX_REQUESTS {
        return Response(429, TOO_MANY_ATTEMPTS);
      }
      var (r, users') := Register(users, req, isEmail, hash, dbUp);
      users := users';
      response := r;
    }
  }

  // ------------------------------------------------------------ properties

  /** A request that is not a POST gets 405 and is not counted. */
  lemma NonPostIsNotCounted(attempts: map<string, Attempt>, users: map<string, UserRow>, req: Request, now: int,
                            isEmail: string -> bool, hash: string -> string, dbUp: bool)
    requires now > 0 && req.httpMethod != "POST"
    ensures Signup(attempts, users, req, now, isEmail, hash, dbUp)
            == SignupResult(Response(405, METHOD_NOT_ALLOWED), attempts, users)
  {
  }

  /** What the limiter does to `signupAttempts`, whatever the answer. */
  lemma SignupCounts(attempts: map<string, Attempt>, users: map<string, UserRow>, req: Request, now: int,
                     isEmail: string -> bool, hash: string -> string, dbUp: bool)
    requires now > 0 && req.httpMethod == "POST"
    ensures var r := Signup(attempts, users, req, now, isEmail, hash, dbUp);
      && r.attempts == attempts[ClientIp(req) := Counted(attempts, ClientIp(req), now)]
      && (r.response.status == 429 <==> Counted(attempts, ClientIp(req), now).count > MAX_REQUESTS)
  {
    var e := Counted(attempts, ClientIp(req), now);
    var reg := Register(users, req, isEmail, hash, dbUp);
    assert reg.0.status != 429;
  }

  /** Every POST adds one to its IP's count, in the current window or in a
      new one, whether or not it is later refused; the entries of other IPs
      are untouched; the answer is 429 exactly when the count passes five. */
  lemma EveryPostIsCounted(attempts: map<string, Attempt>, users: map<string, UserRow>, req: Request, now: int,
                           isEmail: string -> bool, hash: string -> string, dbUp: bool)
    requires now > 0 && req.httpMethod == "POST"
    ensures var r := Signup(attempts, users, req, now, isEmail, hash, dbUp);
      var ip := ClientIp(req);
      && ip in r.attempts
      && r.attempts[ip].count == (if ip in attempts && attempts[ip].expires >= now then attempts[ip].count else 0) + 1
      && (forall other :: other in attempts && other != ip ==> other in r.attempts && r.attempts[other] == attempts[other])
      && (r.response.status == 429 <==> r.attempts[ip].count > MAX_REQUESTS)
  {
    SignupCounts(attempts, users, req, now, isEmail, hash, dbUp);
  }

  /** How many of a series of counted requests from one IP, at the given
      times, get past the limiter. */
  function Passes(attempts: map<string, Attempt>, ip: string, times: seq<int>): nat
    requires forall i :: 0 <= i < |times| ==> times[i] > 0
    decreases |times|
  {
    if times == [] then 0
    else
      var e := Counted(attempts, ip, times[0]);
      (if e.count > MAX_REQUESTS then 0 else 1) + Passes(attempts[ip := e], ip, times[1..])
  }

  /** While a window stays open, no more than the attempts it has left get
      through. */
  lemma {:induction false} OpenWindowPasses(attempts: map<string, Attempt>, ip: string, times: seq<int>)
    requires ip in attempts
    requires forall i :: 0 <= i < |times| ==> 0 < times[i] <= attempts[ip].expires
    ensures Passes(attempts, ip, times) <= if attempts[ip].count >= MAX_REQUESTS then 0 else MAX_REQUESTS - attempts[ip].count
  {
    if times != [] {
      var e := Counted(attempts, ip, times[0]);
      assert e == attempts[ip].(count := attempts[ip].count + 1);
      OpenWindowPasses(attempts[ip := e], ip, times[1..]);
    }
  }

  /** A request that opens a new window at `start`, followed by any number
      of requests from the same IP before that window ends: at most five of
      them get past the limiter. */
  lemma AtMostFivePerWindow(attempts: map<string, Attempt>, ip: string, start: int, times: seq<int>)
    requires start > 0
    requires ip !in attempts || attempts[ip].expires < start
    requires forall i :: 0 <= i < |times| ==> 0 < times[i] <= start + WINDOW_MS
    ensures Passes(attempts, ip, [start] + times) <= MAX_REQUESTS
  {
    var e := Counted(attempts, ip, start);
    assert ([start] + times)[1..] == times;
    OpenWindowPasses(attempts[ip := e], ip, times);
  }

  /** The handler answers 201 exactly when the request is a POST within the
      limit, has all three fields, the normalised e-mail is valid and not
      taken, and the password is strong; the user is then stored under the
      normalised e-mail. Any other answer leaves the users unchanged. A POST
      within the limit with a missing field gets 400 "All fields are
      required", and one that is valid but names a stored e-mail gets 400
      "User already exists". */
  lemma CreatedExactlyWhenValid(attempts: map<string, Attempt>, users: map<string, UserRow>, req: Request, now: int,
                                isEmail: string -> bool, hash: string -> string, dbUp: bool)
    requires now > 0
    ensures var r := Signup(attempts, users, req, now, isEmail, hash, dbUp);
      (r.response.status == 201 <==>
        && req.httpMethod == "POST"
        && Counted(attempts, ClientIp(req), now).count <= MAX_REQUESTS
        && req.email.Some? && req.email.value != []
        && req.password.Some? && req.password.value != []
        && req.name.Some? && req.name.value != []
        && isEmail(NormaliseEmail(req.email.value))
        && StrongPassword(req.password.value)
        && dbUp
        && NormaliseEmail(req.email.value) !in users)
      && (r.response.status == 201 ==>
            r.users == users[NormaliseEmail(req.email.value) := UserRow(req.name.value, hash(req.password.value))])
      && (r.response.status != 201 ==> r.users == users)
      && (req.httpMethod == "POST" && Counted(attempts, ClientIp(req), now).count <= MAX_REQUESTS ==>
            && (MissingField(req) ==> r.response == Response(400, FIELDS_REQUIRED))
            && ((!MissingField(req) && isEmail(NormaliseEmail(req.email.value)) && StrongPassword(req.password.value)
                 && dbUp && NormaliseEmail(req.email.value) in users) ==> r.response == Response(400, USER_EXISTS)))
  {
    if req.httpMethod == "POST" && Counted(attempts, ClientIp(req), now).count <= MAX_REQUESTS {
      RegisterCreatedExactly(users, req, isEmail, hash, dbUp);
    }
  }

  lemma RegisterCreatedExactly(users: map<string, UserRow>, req: Request, isEmail: string -> bool,
                               hash: string -> string, dbUp: bool)
    ensures var (response, users') := Register(users, req, isEmail, hash, dbUp);
      (response.status == 201 <==>
        && req.email.Some? && req.email.value != []
        && req.password.Some? && req.password.value != []
        && req.name.Some? && req.name.value != []
        && isEmail(NormaliseEmail(req.email.value))
        && StrongPassword(req.password.value)
        && dbUp
        && NormaliseEmail(req.email.value) !in users)
      && (response.status == 201 ==>
            users' == users[NormaliseEmail(req.email.value) := UserRow(req.name.value, hash(req.password.value))])
      && (response.status != 201 ==> users' == users)
      && (MissingField(req) ==> response == Response(400, FIELDS_REQUIRED))
      && ((!MissingField(req) && isEmail(NormaliseEmail(req.email.value)) && StrongPassword(req.password.value)
           && dbUp && NormaliseEmail(req.email.value) in users) ==> response == Response(400, USER_EXISTS))
  {
  }

  /** A password shorter than 8 UTF-16 units, or one without a digit, is refused. */
  lemma WeakPasswordRefused(attempts: map<string, Attempt>, users: map<string, UserRow>, req: Request, now: int,
                            isEmail: string -> bool, hash: string -> string, dbUp: bool)
    requires now > 0 && req.httpMethod == "POST"
    requires Counted(attempts, ClientIp(req), now).count <= MAX_REQUESTS
    requires req.email.Some? && req.email.value != [] && req.name.Some? && req.name.value != []
    requires isEmail(NormaliseEmail(req.email.value))
    requires req.password.Some? && req.password.value != []
    requires Utf16Length(req.password.value) < 8 || forall i :: 0 <= i < |req.password.value| ==> !IsDigit(req.password.value[i])
    ensures Signup(attempts, users, req, now, isEmail, hash, dbUp).response == Response(400, WEAK_PASSWORD)
  {
  }

  predicate NoUpper(s: string)
  {
    forall i :: 0 <= i < |s| ==> !('A' <= s[i] <= 'Z')
  }

  lemma NoUpperSurvivesTrim(l: string)
    requires NoUpper(l)
    ensures NoUpper(Trim(l))
  {
    var t := TrimStart(l);
    SliceNoUpper(l, |l| - |t|, |l|);
    assert NoUpper(t);
    SliceNoUpper(t, 0, |TrimEnd(t)|);
  }

  lemma SliceNoUpper(s: string, lo: nat, hi: nat)
    requires NoUpper(s) && lo <= hi <= |s|
    ensures NoUpper(s[lo..hi])
  {
    forall i | 0 <= i < hi - lo ensures !('A' <= s[lo..hi][i] <= 'Z') {
      assert s[lo..hi][i] == s[lo + i];
    }
  }

  /** The key a user is stored under has no upper-case ASCII letter and
      neither starts nor ends with whitespace, so e-mails that differ only
      in case or surrounding spaces name the same user. */
  lemma NormalisedEmailIsCanonical(email: string)
    ensures var n := NormaliseEmail(email);
      && NoUpper(n)
      && (n != [] ==> !IsSpace(n[0]) && !IsSpace(n[|n| - 1]))
  {
    var l := ToLower(email);
    assert NoUpper(l) by {
      forall i | 0 <= i < |l| ensures !('A' <= l[i] <= 'Z') {
        assert l[i] == LowerChar(email[i]);
      }
    }
    NoUpperSurvivesTrim(l);
    var t := TrimStart(l);
    var n := TrimEnd(t);
    if n != [] {
      assert n[0] == t[0];
    }
  }
}
