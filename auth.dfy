/** The bearer-token authorization decision of `checkToken`
    (src/utils/checkToken.js). The signature check `jwt.verify` and the call
    to the remote validation endpoint are foreign; they enter as oracles,
    `verify` from the bearer segment to a payload (None when it throws) and
    `fetch` from the full header to the authority's answer. `now` is the
    value of `Date.now()` at the expiry comparison, in epoch milliseconds. */
module Auth {
  import opened Values

  const NoToken := "No se ha enviado el token de autenticación"
  const InvalidToken := "El token no es válido"
  const ExpiredToken := "El token ha expirado"
  const NotPermitted := "El usuario no tiene permisos para realizar esta acción"
  /** The empty reason: the caller is authorized. */
  const Granted := ""

  /** The `code` the authority sends for a valid token, and the only
      `userType` that may act. */
  const CodeValid := 200
  const RequiredUserType := 3

  /** The verified payload. `exp` is compared directly with milliseconds;
      a token without `exp` gives `now > undefined`, which is false. */
  datatype Payload = Payload(exp: Option<int>)

  /** The remote call after `.json()`. `Failed` covers a rejected `fetch`,
      a body that is not JSON and a `null` body (whose `.code` throws); a
      non-object JSON body reads as an `Answer` with undefined fields. */
  datatype Authority = Failed | Answer(code: Value, userType: Value)

  /** `s.split(' ')`: the pieces between single spaces, in order. */
  function Split(s: string): (parts: seq<string>)
    ensures |parts| >= 1
    ensures forall i :: 0 <= i < |parts| ==> ' ' !in parts[i]
    ensures |parts| > 1 <==> ' ' in s
  {
    if s == [] then [""]
    else
      var rest := Split(s[1..]);
      assert ' ' in s <==> s[0] == ' ' || ' ' in s[1..];
      if s[0] == ' ' then [""] + rest
      else [[s[0]] + rest[0]] + rest[1..]
  }

  /** `parts.join(' ')`, the inverse of Split. */
  function Join(parts: seq<string>): string
    requires |parts| >= 1
  {
    if |parts| == 1 then parts[0] else parts[0] + " " + Join(parts[1..])
  }

  lemma {:induction false} JoinSplit(s: string)
    ensures Join(Split(s)) == s
  {
    if s != [] {
      var rest := Split(s[1..]);
      JoinSplit(s[1..]);
      if s[0] == ' ' {
        assert ([""] + rest)[1..] == rest;
      } else if |rest| > 1 {
        assert ([[s[0]] + rest[0]] + rest[1..])[1..] == rest[1..];
        assert s == [s[0]] + s[1..];
      } else {
        assert s == [s[0]] + s[1..];
      }
    }
  }

  lemma {:induction false} SplitWord(w: string)
    requires ' ' !in w
    ensures Split(w) == [w]
  {
    if w != [] {
      SplitWord(w[1..]);
      assert [w[0]] + w[1..] == w;
    }
  }

  lemma {:induction false} SplitFirstSpace(w: string, t: string)
    requires ' ' !in w
    ensures Split(w + " " + t) == [w] + Split(t)
  {
    var s := w + " " + t;
    if w == [] {
      assert s[1..] == t;
    } else {
      assert s[1..] == w[1..] + " " + t;
      SplitFirstSpace(w[1..], t);
      assert [w[0]] + w[1..] == w;
    }
  }

  lemma {:induction false} SplitJoin(parts: seq<string>)
    requires |parts| >= 1
    requires forall i :: 0 <= i < |parts| ==> ' ' !in parts[i]
    ensures Split(Join(parts)) == parts
  {
    if |parts| == 1 {
      SplitWord(parts[0]);
    } else {
      SplitJoin(parts[1..]);
      SplitFirstSpace(parts[0], Join(parts[1..]));
      assert [parts[0]] + parts[1..] == parts;
    }
  }

  /** `auth.split(' ')[1]`: undefined (None) when the header has no space. */
  function BearerSegment(auth: string): (token: Option<string>)
    ensures token.None? <==> ' ' !in auth
    ensures token.Some? ==> ' ' !in token.value
  {
    var parts := Split(auth);
    if |parts| > 1 then Some(parts[1]) else None
  }

  /** Whatever word precedes the first space is ignored; what follows up to
      the next space is the token. */
  lemma BearerToken(scheme: string, token: string, rest: seq<string>)
    requires ' ' !in scheme && ' ' !in token
    requires forall i :: 0 <= i < |rest| ==> ' ' !in rest[i]
    ensures BearerSegment(Join([scheme, token] + rest)) == Some(token)
  {
    var parts := [scheme, token] + rest;
    forall i | 0 <= i < |parts| ensures ' ' !in parts[i] {
      if i >= 2 { assert parts[i] == rest[i - 2]; }
    }
    SplitJoin(parts);
  }

  predicate HeaderPresent(auth: Option<string>)
  {
    auth.Some? && auth.value != ""
  }

  /** `Date.now() > payLoad.exp` */
  predicate IsExpired(p: Payload, now: int)
  {
    p.exp.Some? && now > p.exp.value
  }

  predicate CodeAccepted(a: Authority)
  {
    a.Answer? && a.code == Num(CodeValid)
  }

  /** `!(result.userType && result.userType !== 3)` */
  predicate RolePermitted(a: Authority)
  {
    a.Answer? && !(Truthy(a.userType) && a.userType != Num(RequiredUserType))
  }

  /** The whole `checkToken` chain. Every exception inside the `try`
      (a missing segment, a throwing `verify`, a failed remote call)
      ends as InvalidToken. */
  function CheckToken(auth: Option<string>, verify: string -> Option<Payload>, now: int,
                      fetch: string -> Authority): (reason: string)
    ensures reason in {NoToken, InvalidToken, ExpiredToken, NotPermitted, Granted}
    ensures reason == NoToken <==> !HeaderPresent(auth)
  {
    if !HeaderPresent(auth) then NoToken
    else match BearerSegment(auth.value)
      case None => InvalidToken
      case Some(token) =>
        match verify(token)
        case None => InvalidToken
        case Some(payload) =>
          if IsExpired(payload, now) then ExpiredToken
          else
            var answer := fetch(auth.value);
            if !CodeAccepted(answer) then InvalidToken
            else if !RolePermitted(answer) then NotPermitted
            else Granted
  }

  // ---------------------------------------------------------------------
  // An independent reading of the chain as a decision table: five gates in
  // the source's order, the reason of the first one that fails.

  /** The payload when the header holds a segment that verifies. */
  function Verified(auth: Option<string>, verify: string -> Option<Payload>): Option<Payload>
  {
    if HeaderPresent(auth) && BearerSegment(auth.value).Some?
    then verify(BearerSegment(auth.value).value)
    else None
  }

  function HeaderText(auth: Option<string>): string
  {
    if auth.Some? then auth.value else ""
  }

  function Gates(auth: Option<string>, verify: string -> Option<Payload>, now: int,
                 fetch: string -> Authority): seq<bool>
  {
    var p := Verified(auth, verify);
    [ HeaderPresent(auth),
      p.Some?,
      p.Some? && !IsExpired(p.value, now),
      CodeAccepted(fetch(HeaderText(auth))),
      RolePermitted(fetch(HeaderText(auth))) ]
  }

  const GateReasons: seq<string> := [NoToken, InvalidToken, ExpiredToken, InvalidToken, NotPermitted]

  /** Index of the first false gate, or |gates| when all hold. */
  function FirstFailure(gates: seq<bool>): (k: nat)
    ensures k <= |gates|
    ensures forall i :: 0 <= i < k ==> gates[i]
    ensures k < |gates| ==> !gates[k]
  {
    if gates == [] || !gates[0] then 0 else 1 + FirstFailure(gates[1..])
  }

  /** The first failing check determines the reason; later checks,
      whatever their inputs, cannot change it. */
  lemma DecisionTable(auth: Option<string>, verify: string -> Option<Payload>, now: int,
                      fetch: string -> Authority)
    ensures var k := FirstFailure(Gates(auth, verify, now, fetch));
            CheckToken(auth, verify, now, fetch) == if k < 5 then GateReasons[k] else Granted
  {
    var g := Gates(auth, verify, now, fetch);
    var k := FirstFailure(g);
    assert |g| == 5;
    if k == 0 {
    } else if k == 1 {
      assert g[0];
    } else if k == 2 {
      assert g[0] && g[1];
    } else if k == 3 {
      assert g[0] && g[1] && g[2];
    } else if k == 4 {
      assert g[0] && g[1] && g[2] && g[3];
    } else {
      assert g[0] && g[1] && g[2] && g[3] && g[4];
    }
  }

  /** The empty string is returned exactly when every check passes. */
  lemma AuthorizedIff(auth: Option<string>, verify: string -> Option<Payload>, now: int,
                      fetch: string -> Authority)
    ensures CheckToken(auth, verify, now, fetch) == Granted <==>
      HeaderPresent(auth)
      && BearerSegment(auth.value).Some?
      && verify(BearerSegment(auth.value).value).Some?
      && !IsExpired(verify(BearerSegment(auth.value).value).value, now)
      && fetch(auth.value).Answer?
      && fetch(auth.value).code == Num(200)
      && (!Truthy(fetch(auth.value).userType) || fetch(auth.value).userType == Num(3))
  {
  }

  /** Expiry is strict: a token is still good at the millisecond `exp`. */
  lemma ExpiryIsStrict(auth: Option<string>, verify: string -> Option<Payload>, now: int,
                       fetch: string -> Authority)
    requires Verified(auth, verify).Some?
    requires Verified(auth, verify).value.exp.Some?
    ensures var exp := Verified(auth, verify).value.exp.value;
            (CheckToken(auth, verify, now, fetch) == ExpiredToken <==> now > exp)
  {
  }

  /** A missing or empty header decides the outcome without consulting
      `verify`, the clock or the authority. */
  lemma MissingHeaderConsultsNothing(auth: Option<string>,
                                     verify: string -> Option<Payload>, now: int, fetch: string -> Authority,
                                     verify': string -> Option<Payload>, now': int, fetch': string -> Authority)
    requires !HeaderPresent(auth)
    ensures CheckToken(auth, verify, now, fetch) == CheckToken(auth, verify', now', fetch') == NoToken
  {
  }

  /** A header without a bearer segment, or a segment `verify` rejects, is
      an invalid token whatever the clock and the authority say. */
  lemma UnverifiedIsInvalid(auth: Option<string>, verify: string -> Option<Payload>,
                            now: int, fetch: string -> Authority, now': int, fetch': string -> Authority)
    requires HeaderPresent(auth) && Verified(auth, verify).None?
    ensures CheckToken(auth, verify, now, fetch) == CheckToken(auth, verify, now', fetch') == InvalidToken
  {
  }

  /** An expired token is rejected before the remote call is made. */
  lemma ExpiredSkipsAuthority(auth: Option<string>, verify: string -> Option<Payload>, now: int,
                              fetch: string -> Authority, fetch': string -> Authority)
    requires Verified(auth, verify).Some? && IsExpired(Verified(auth, verify).value, now)
    ensures CheckToken(auth, verify, now, fetch) == CheckToken(auth, verify, now, fetch') == ExpiredToken
  {
  }

  /** The authority is asked about the original header, and only that
      answer matters. */
  lemma AuthorityGetsHeader(auth: Option<string>, verify: string -> Option<Payload>, now: int,
                            fetch: string -> Authority, fetch': string -> Authority)
    requires HeaderPresent(auth) && fetch(auth.value) == fetch'(auth.value)
    ensures CheckToken(auth, verify, now, fetch) == CheckToken(auth, verify, now, fetch')
  {
  }

  /** Past verification and expiry: a failed call or a code other than 200
      is an invalid token; otherwise the role decides. */
  lemma AuthorityVerdict(auth: Option<string>, verify: string -> Option<Payload>, now: int,
                         fetch: string -> Authority)
    requires Verified(auth, verify).Some? && !IsExpired(Verified(auth, verify).value, now)
    ensures !CodeAccepted(fetch(auth.value)) ==> CheckToken(auth, verify, now, fetch) == InvalidToken
    ensures CodeAccepted(fetch(auth.value)) ==>
      (CheckToken(auth, verify, now, fetch) == NotPermitted <==>
         Truthy(fetch(auth.value).userType) && fetch(auth.value).userType != Num(3))
  {
  }
}
