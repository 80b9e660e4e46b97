/**
 * The daily admin token scheme of the server (src/lib/auth/token-generator.ts).
 *
 * A token is derived from the date (YYYYMMDD), one team member's birth date
 * and phone digits, the member's role and a project secret: the five are
 * joined with `|`, hashed with SHA-256 and the first 16 hex digits are shown
 * as `8-4-4`. A request carries only the token; the server recovers the role
 * by re-deriving every member's token for today and returning the first
 * that matches.
 *
 * SHA-256 is a parameter (`Sha256`): any function whose successful results
 * are 64 lower-case hex digits; a failure stands for the runtime having no
 * crypto implementation, which makes the derivation throw.
 */
module TokenGenerator {
  import opened Wrappers
  import opened Text

  datatype Member = Member(role: string, birthDate: string, phoneLastFour: string)

  predicate IsLowerHex(c: char) {
    '0' <= c <= '9' || 'a' <= c <= 'f'
  }

  predicate IsHexDigest(d: string) {
    |d| == 64 && forall i :: 0 <= i < |d| ==> IsLowerHex(d[i])
  }

  /** A SHA-256 implementation as the runtime provides it, with its failure message. */
  type Sha256 = h: string -> Result<string, string> | forall s :: h(s).Success? ==> IsHexDigest(h(s).value)
    witness (s: string) => Failure("No crypto implementation available")

  /** The member registry (in declaration order), the project secret and the hash in use. */
  datatype Config = Config(registry: seq<Member>, secret: string, sha256: Sha256)

  datatype TokenError = InvalidRole(role: string) | CryptoUnavailable(message: string)

  function ErrorMessage(e: TokenError): string {
    match e
    case InvalidRole(role) => "Invalid role: " + role
    case CryptoUnavailable(message) => message
  }

  /** `process.env[name] || fallback`: an unset or empty variable falls back. */
  function EnvOr(env: map<string, string>, name: string, fallback: string): string {
    if name in env && env[name] != "" then env[name] else fallback
  }

  function Roles(registry: seq<Member>): (roles: seq<string>)
    ensures |roles| == |registry|
    ensures forall i :: 0 <= i < |registry| ==> roles[i] == registry[i].role
  {
    seq(|registry|, i requires 0 <= i < |registry| => registry[i].role)
  }

  /** The server's registry and secret: every credential may be overridden by the environment, the roles may not. */
  function ServerConfig(env: map<string, string>, sha256: Sha256): (c: Config)
    ensures |c.registry| == 4
    ensures c.registry[0].role == "developer" && c.registry[1].role == "designer"
    ensures c.registry[2].role == "marketing" && c.registry[3].role == "pm"
  {
    Config(
      [ Member("developer", EnvOr(env, "DEV_BIRTH", "20020317"), EnvOr(env, "DEV_PHONE", "01092034239")),
        Member("designer", EnvOr(env, "DESIGN_BIRTH", "00000000"), EnvOr(env, "DESIGN_PHONE", "00000000000")),
        Member("marketing", EnvOr(env, "MARKETING_BIRTH", "00000000"), EnvOr(env, "MARKETING_PHONE", "00000000000")),
        Member("pm", EnvOr(env, "PM_BIRTH", "00000000"), EnvOr(env, "PM_PHONE", "00000000000")) ],
      EnvOr(env, "PROJECT_SECRET", "vinscent_mvp_2025_secret_key"),
      sha256)
  }

  /** With no environment overrides, designer, marketing and pm share one birth date and phone number. */
  lemma ServerDefaults(sha256: Sha256)
    ensures var c := ServerConfig(map[], sha256);
      c.registry == [ Member("developer", "20020317", "01092034239"), Member("designer", "00000000", "00000000000"),
                      Member("marketing", "00000000", "00000000000"), Member("pm", "00000000", "00000000000") ]
      && c.secret == "vinscent_mvp_2025_secret_key"
  {
  }

  /** `TEAM_INFO[role]`: the member registered under `role`. */
  function Lookup(registry: seq<Member>, role: string): (r: Option<Member>)
    ensures r.Some? ==> r.value in registry && r.value.role == role
    ensures r.None? <==> forall i :: 0 <= i < |registry| ==> registry[i].role != role
    decreases |registry|
  {
    if |registry| == 0 then None
    else if registry[0].role == role then Some(registry[0])
    else Lookup(registry[1..], role)
  }

  /** The string that is hashed. */
  function Ingredients(date: string, m: Member, secret: string): (s: string)
    ensures FieldsWithoutPipe(date, m, secret) ==> Split(s, '|') == [date, m.birthDate, m.phoneLastFour, m.role, secret]
  {
    var parts := [date, m.birthDate, m.phoneLastFour, m.role, secret];
    if FieldsWithoutPipe(date, m, secret) then
      assert forall i :: 0 <= i < 5 ==> '|' !in parts[i];
      SplitJoin(parts, '|');
      Join(parts, "|")
    else Join(parts, "|")
  }

  /** `${h.slice(0, 8)}-${h.slice(8, 12)}-${h.slice(12, 16)}`. */
  function FormatToken(digest: string): (t: string)
    requires |digest| >= 16
    ensures |t| == 18 && t[8] == '-' && t[13] == '-'
  {
    digest[..8] + "-" + digest[8..12] + "-" + digest[12..16]
  }

  /** Eight, four and four lower-case hex digits separated by hyphens. */
  predicate IsTokenShape(t: string) {
    |t| == 18 && t[8] == '-' && t[13] == '-'
    && forall i :: 0 <= i < 18 && i != 8 && i != 13 ==> IsLowerHex(t[i])
  }

  /** The token of one member on `date`: the hashed ingredients, cut and hyphenated; a hash that throws gives its message. */
  function TokenFor(cfg: Config, date: string, m: Member): (r: Result<string, TokenError>)
    ensures r.Success? <==> cfg.sha256(Ingredients(date, m, cfg.secret)).Success?
    ensures r.Success? ==> IsTokenShape(r.value)
    ensures r.Failure? ==> r.error == CryptoUnavailable(cfg.sha256(Ingredients(date, m, cfg.secret)).error)
  {
    match cfg.sha256(Ingredients(date, m, cfg.secret))
    case Failure(message) => Failure(CryptoUnavailable(message))
    case Success(digest) =>
      var t := FormatToken(digest);
      assert forall i :: 0 <= i < 18 && i != 8 && i != 13 ==> t[i] == digest[if i < 8 then i else if i < 13 then i - 1 else i - 2];
      Success(t)
  }

  function GenerateDailyToken(cfg: Config, date: string, role: string): (r: Result<string, TokenError>)
    ensures r == Failure(InvalidRole(role)) <==> Lookup(cfg.registry, role).None?
    ensures r.Success? ==> IsTokenShape(r.value)
  {
    match Lookup(cfg.registry, role)
    case None => Failure(InvalidRole(role))
    case Some(m) => TokenFor(cfg, date, m)
  }

  /** Two equal tokens come from digests that agree on their first 16 hex digits. */
  lemma FormatTokenInjective(d1: string, d2: string)
    requires |d1| >= 16 && |d2| >= 16
    ensures FormatToken(d1) == FormatToken(d2) <==> d1[..16] == d2[..16]
  {
    var t1, t2 := FormatToken(d1), FormatToken(d2);
    if t1 == t2 {
      assert forall i :: 0 <= i < 16 ==> d1[i] == t1[if i < 8 then i else if i < 12 then i + 1 else i + 2];
      assert forall i :: 0 <= i < 16 ==> d2[i] == t2[if i < 8 then i else if i < 12 then i + 1 else i + 2];
      assert d1[..16] == d2[..16];
    }
    if d1[..16] == d2[..16] {
      assert d1[..8] == d1[..16][..8] && d2[..8] == d2[..16][..8];
      assert d1[8..12] == d1[..16][8..12] && d2[8..12] == d2[..16][8..12];
      assert d1[12..16] == d1[..16][12..16] && d2[12..16] == d2[..16][12..16];
    }
  }

  predicate NoPipe(s: string) {
    '|' !in s
  }

  predicate FieldsWithoutPipe(date: string, m: Member, secret: string) {
    NoPipe(date) && NoPipe(m.birthDate) && NoPipe(m.phoneLastFour) && NoPipe(m.role) && NoPipe(secret)
  }

  /**
   * With no `|` inside a field the joined string determines every field, so
   * two different (date, member, secret) triples are never hashed from the
   * same input: equal tokens for them need a SHA-256 prefix collision.
   */
  lemma IngredientsInjective(d1: string, m1: Member, s1: string, d2: string, m2: Member, s2: string)
    requires FieldsWithoutPipe(d1, m1, s1) && FieldsWithoutPipe(d2, m2, s2)
    requires Ingredients(d1, m1, s1) == Ingredients(d2, m2, s2)
    ensures d1 == d2 && m1 == m2 && s1 == s2
  {
    var p1 := [d1, m1.birthDate, m1.phoneLastFour, m1.role, s1];
    var p2 := [d2, m2.birthDate, m2.phoneLastFour, m2.role, s2];
    assert forall i :: 0 <= i < 5 ==> '|' !in p1[i];
    assert forall i :: 0 <= i < 5 ==> '|' !in p2[i];
    assert Join(p1, ['|']) == Ingredients(d1, m1, s1);
    assert Join(p2, ['|']) == Ingredients(d2, m2, s2);
    SplitJoin(p1, '|');
    SplitJoin(p2, '|');
    assert p1[0] == p2[0] && p1[1] == p2[1] && p1[2] == p2[2] && p1[3] == p2[3] && p1[4] == p2[4];
  }

  /**
   * Members that share a birth date and phone number (as designer, marketing
   * and pm do by default) still hash different inputs, because the role is
   * one of the fields.
   */
  lemma DistinctRolesDistinctIngredients(date: string, m1: Member, m2: Member, secret: string)
    requires FieldsWithoutPipe(date, m1, secret) && FieldsWithoutPipe(date, m2, secret)
    requires m1.role != m2.role
    ensures Ingredients(date, m1, secret) != Ingredients(date, m2, secret)
  {
    if Ingredients(date, m1, secret) == Ingredients(date, m2, secret) {
      IngredientsInjective(date, m1, secret, date, m2, secret);
    }
  }

  /** The clock's ISO timestamp cut to its first ten characters with the hyphens removed. */
  function DateKey(isoNow: string): (d: string)
    ensures '-' !in d && |d| <= 10
  {
    RemoveAll(isoNow[..if |isoNow| < 10 then |isoNow| else 10], '-')
  }

  /** `YYYY-MM-DD` at the front, as `Date.prototype.toISOString` writes it for years 0 to 9999. */
  predicate IsIsoTimestamp(s: string) {
    |s| >= 10 && AllDigits(s[..4]) && s[4] == '-' && AllDigits(s[5..7]) && s[7] == '-' && AllDigits(s[8..10])
  }

  lemma DateKeyOfIsoTimestamp(s: string)
    requires IsIsoTimestamp(s)
    ensures DateKey(s) == s[..4] + s[5..7] + s[8..10]
    ensures |DateKey(s)| == 8 && AllDigits(DateKey(s)) && NoPipe(DateKey(s))
  {
    var y, m, d := s[..4], s[5..7], s[8..10];
    assert s[..10] == y + "-" + m + "-" + d;
    HyphensRemoved(y, m, d);
    DigitsJoined(y, m, d);
  }

  /** Removing the two hyphens of `y-m-d` leaves `ymd` when the parts hold none. */
  lemma HyphensRemoved(y: string, m: string, d: string)
    requires '-' !in y && '-' !in m && '-' !in d
    ensures RemoveAll(y + "-" + m + "-" + d, '-') == y + m + d
  {
    var h := RemoveAll("-", '-');
    assert h == "";
    var a := y + "-";
    RemoveAllConcat(y, "-", '-');
    assert RemoveAll(a, '-') == y;
    var b := a + m;
    RemoveAllConcat(a, m, '-');
    assert RemoveAll(b, '-') == y + m;
    var c := b + "-";
    RemoveAllConcat(b, "-", '-');
    assert RemoveAll(c, '-') == y + m;
    RemoveAllConcat(c, d, '-');
    assert c + d == y + "-" + m + "-" + d;
  }

  lemma DigitsJoined(y: string, m: string, d: string)
    requires AllDigits(y) && AllDigits(m) && AllDigits(d)
    ensures AllDigits(y + m + d) && NoPipe(y + m + d)
  {
    var k := y + m + d;
    assert forall i :: 0 <= i < |k| ==> k[i] == if i < |y| then y[i] else if i < |y| + |m| then m[i - |y|] else d[i - |y| - |m|];
  }

  /** `getTodayToken(role)`. */
  function GetTodayToken(cfg: Config, isoNow: string, role: string): (r: Result<string, TokenError>)
    ensures r.Success? ==> IsTokenShape(r.value) && Lookup(cfg.registry, role).Some?
  {
    GenerateDailyToken(cfg, DateKey(isoNow), role)
  }

  /** Every member's derivation for `date`, in registry order. */
  function Derivations(cfg: Config, date: string): (d: seq<Result<string, TokenError>>)
    ensures |d| == |cfg.registry|
    ensures forall i :: 0 <= i < |d| ==> d[i] == GenerateDailyToken(cfg, date, cfg.registry[i].role)
  {
    seq(|cfg.registry|, i requires 0 <= i < |cfg.registry| => GenerateDailyToken(cfg, date, cfg.registry[i].role))
  }

  /** Derivation `j` succeeded and is not `token`. */
  predicate Miss(d: seq<Result<string, TokenError>>, token: string, j: nat)
    requires j < |d|
  {
    d[j].Success? && d[j].value != token
  }

  /** The sweep over derivations `d` from position `i` on: the position of the first match, or the first error. */
  function SweepFrom(d: seq<Result<string, TokenError>>, token: string, i: nat): (r: Result<Option<nat>, TokenError>)
    requires i <= |d|
    ensures r.Success? && r.value.Some? ==> i <= r.value.value < |d| && d[r.value.value] == Success(token)
    decreases |d| - i
  {
    if i == |d| then Success(None)
    else
      match d[i]
      case Failure(e) => Failure(e)
      case Success(t) => if t == token then Success(Some(i)) else SweepFrom(d, token, i + 1)
  }

  /** Member `j`'s token for `date` was derived and is not `token`. */
  predicate Mismatch(cfg: Config, date: string, token: string, j: nat)
    requires j < |cfg.registry|
  {
    var g := GenerateDailyToken(cfg, date, cfg.registry[j].role);
    g.Success? && g.value != token
  }

  /** Member `k`'s token is `token` and every earlier member's token was derived and differs. */
  predicate FirstMatchAt(cfg: Config, date: string, token: string, k: nat)
    requires k < |cfg.registry|
  {
    GenerateDailyToken(cfg, date, cfg.registry[k].role) == Success(token)
    && forall j :: 0 <= j < k ==> Mismatch(cfg, date, token, j)
  }

  /** Member `k`'s derivation throws before any earlier member matched. */
  predicate AbortAt(cfg: Config, date: string, token: string, k: nat)
    requires k < |cfg.registry|
  {
    GenerateDailyToken(cfg, date, cfg.registry[k].role).Failure?
    && forall j :: 0 <= j < k ==> Mismatch(cfg, date, token, j)
  }

  /** A miss of the derivations is a mismatch of the member at that position. */
  lemma MissIsMismatch(cfg: Config, date: string, token: string)
    ensures forall j :: 0 <= j < |cfg.registry| ==> (Miss(Derivations(cfg, date), token, j) <==> Mismatch(cfg, date, token, j))
  {
  }

  /** The role a token stands for on `date`; an error anywhere in the sweep gives `None` (the catch). */
  function TokenRole(cfg: Config, date: string, token: string): (r: Option<string>)
    ensures r.Some? ==> r.value in Roles(cfg.registry)
  {
    match SweepFrom(Derivations(cfg, date), token, 0)
    case Failure(_) => None
    case Success(None) => None
    case Success(Some(k)) => Some(cfg.registry[k].role)
  }

  /** One step of the loop: a failed derivation ends the sweep in error, a matching one at this position. */
  lemma SweepStep(d: seq<Result<string, TokenError>>, token: string, i: nat)
    requires i < |d|
    ensures d[i].Failure? ==> SweepFrom(d, token, i).Failure?
    ensures d[i] == Success(token) ==> SweepFrom(d, token, i) == Success(Some(i))
    ensures Miss(d, token, i) ==> SweepFrom(d, token, i) == SweepFrom(d, token, i + 1)
  {
  }

  /** `getTokenRole(token)`: the loop over the registry with an early return. */
  method GetTokenRole(cfg: Config, isoNow: string, token: string) returns (role: Option<string>)
    ensures role == TokenRole(cfg, DateKey(isoNow), token)
  {
    var date := DateKey(isoNow);
    ghost var d := Derivations(cfg, date);
    var i := 0;
    while i < |cfg.registry|
      invariant 0 <= i <= |cfg.registry|
      invariant SweepFrom(d, token, i) == SweepFrom(d, token, 0)
    {
      var expected := GenerateDailyToken(cfg, date, cfg.registry[i].role);
      SweepStep(d, token, i);
      if expected.Failure? {
        return None;
      }
      if token == expected.value {
        return Some(cfg.registry[i].role);
      }
      i := i + 1;
    }
    return None;
  }

  /**
   * `validateToken(token, role?)`: against one role's token when a non-empty
   * role is given (an unknown role throws and yields false), otherwise the
   * same sweep as `getTokenRole`, answering only whether it matched.
   */
  method ValidateToken(cfg: Config, isoNow: string, token: string, role: Option<string>) returns (ok: bool)
    ensures role.Some? && role.value != "" ==>
      (ok <==> GenerateDailyToken(cfg, DateKey(isoNow), role.value) == Success(token))
    ensures !(role.Some? && role.value != "") ==> (ok <==> TokenRole(cfg, DateKey(isoNow), token).Some?)
  {
    var date := DateKey(isoNow);
    if role.Some? && role.value != "" {
      var expected := GenerateDailyToken(cfg, date, role.value);
      if expected.Failure? {
        return false;
      }
      return token == expected.value;
    }
    ok := AnyMemberMatches(cfg, date, token);
  }

  /** The loop of `validateToken` without a role: true at the first matching member, false on an error or when none matches. */
  method AnyMemberMatches(cfg: Config, date: string, token: string) returns (ok: bool)
    ensures ok <==> TokenRole(cfg, date, token).Some?
  {
    ghost var d := Derivations(cfg, date);
    var i := 0;
    while i < |cfg.registry|
      invariant 0 <= i <= |cfg.registry|
      invariant SweepFrom(d, token, i) == SweepFrom(d, token, 0)
    {
      var expected := GenerateDailyToken(cfg, date, cfg.registry[i].role);
      SweepStep(d, token, i);
      if expected.Failure? {
        return false;
      }
      if token == expected.value {
        return true;
      }
      i := i + 1;
    }
    return false;
  }

  lemma {:induction false} SweepFinds(d: seq<Result<string, TokenError>>, token: string, i: nat, k: nat)
    requires i <= k < |d|
    requires d[k] == Success(token)
    requires forall j :: i <= j < k ==> Miss(d, token, j)
    ensures SweepFrom(d, token, i) == Success(Some(k))
    decreases k - i
  {
    if i < k {
      assert Miss(d, token, i);
      SweepFinds(d, token, i + 1, k);
    }
  }

  lemma {:induction false} SweepAborts(d: seq<Result<string, TokenError>>, token: string, i: nat, k: nat)
    requires i <= k < |d|
    requires d[k].Failure?
    requires forall j :: i <= j < k ==> Miss(d, token, j)
    ensures SweepFrom(d, token, i).Failure?
    decreases k - i
  {
    if i < k {
      assert Miss(d, token, i);
      SweepAborts(d, token, i + 1, k);
    }
  }

  /** A sweep that ends without error and without a match passed every derivation from `i` on. */
  lemma {:induction false} SweepMisses(d: seq<Result<string, TokenError>>, token: string, i: nat)
    requires i <= |d|
    requires SweepFrom(d, token, i) == Success(None)
    ensures forall j :: i <= j < |d| ==> Miss(d, token, j)
    decreases |d| - i
  {
    if i < |d| {
      SweepMisses(d, token, i + 1);
    }
  }

  /** A sweep that returns a position found the first match there. */
  lemma {:induction false} SweepSound(d: seq<Result<string, TokenError>>, token: string, i: nat, k: nat)
    requires i <= |d|
    requires SweepFrom(d, token, i) == Success(Some(k))
    ensures forall j :: i <= j < k ==> Miss(d, token, j)
    decreases |d| - i
  {
    if d[i] != Success(token) {
      SweepSound(d, token, i + 1, k);
    }
  }

  lemma {:induction false} SweepAllMiss(d: seq<Result<string, TokenError>>, token: string, i: nat)
    requires i <= |d|
    requires forall j :: i <= j < |d| ==> Miss(d, token, j)
    ensures SweepFrom(d, token, i) == Success(None)
    decreases |d| - i
  {
    if i < |d| {
      assert Miss(d, token, i);
      SweepAllMiss(d, token, i + 1);
    }
  }

  lemma {:induction false} FirstFailureIsAbort(d: seq<Result<string, TokenError>>, token: string, i: nat) returns (k: nat)
    requires i <= |d|
    requires SweepFrom(d, token, i).Failure?
    ensures i <= k < |d| && d[k].Failure? && forall j :: i <= j < k ==> Miss(d, token, j)
    decreases |d| - i
  {
    if d[i].Failure? {
      k := i;
    } else {
      k := FirstFailureIsAbort(d, token, i + 1);
      assert Miss(d, token, i);
    }
  }

  /** `getTokenRole` returns role `r` exactly when `r` belongs to the first member whose token matches, with no error before it. */
  lemma TokenRoleIsFirstMatch(cfg: Config, date: string, token: string, r: string)
    ensures TokenRole(cfg, date, token) == Some(r) <==>
      exists k :: 0 <= k < |cfg.registry| && cfg.registry[k].role == r && FirstMatchAt(cfg, date, token, k)
  {
    var d := Derivations(cfg, date);
    MissIsMismatch(cfg, date, token);
    if TokenRole(cfg, date, token) == Some(r) {
      var k := SweepFrom(d, token, 0).value.value;
      SweepSound(d, token, 0, k);
      assert FirstMatchAt(cfg, date, token, k);
    }
    if exists k :: 0 <= k < |cfg.registry| && cfg.registry[k].role == r && FirstMatchAt(cfg, date, token, k) {
      var k :| 0 <= k < |cfg.registry| && cfg.registry[k].role == r && FirstMatchAt(cfg, date, token, k);
      SweepFinds(d, token, 0, k);
    }
  }

  /** A derivation error stops the whole sweep: `null` even when a later member's token would match. */
  lemma TokenRoleAbortsOnError(cfg: Config, date: string, token: string, k: nat)
    requires k < |cfg.registry|
    requires AbortAt(cfg, date, token, k)
    ensures TokenRole(cfg, date, token) == None
  {
    MissIsMismatch(cfg, date, token);
    SweepAborts(Derivations(cfg, date), token, 0, k);
  }

  /** `getTokenRole` returns `null` exactly when no member matches first, or an error comes first. */
  lemma TokenRoleNone(cfg: Config, date: string, token: string)
    ensures TokenRole(cfg, date, token) == None <==>
      (forall j :: 0 <= j < |cfg.registry| ==> Mismatch(cfg, date, token, j))
      || (exists k :: 0 <= k < |cfg.registry| && AbortAt(cfg, date, token, k))
  {
    var d := Derivations(cfg, date);
    MissIsMismatch(cfg, date, token);
    var s := SweepFrom(d, token, 0);
    if s == Success(None) {
      SweepMisses(d, token, 0);
    } else if s.Failure? {
      var k := FirstFailureIsAbort(d, token, 0);
      assert AbortAt(cfg, date, token, k);
    }
    if forall j :: 0 <= j < |cfg.registry| ==> Mismatch(cfg, date, token, j) {
      SweepAllMiss(d, token, 0);
    }
    if exists k :: 0 <= k < |cfg.registry| && AbortAt(cfg, date, token, k) {
      var k :| 0 <= k < |cfg.registry| && AbortAt(cfg, date, token, k);
      SweepAborts(d, token, 0, k);
    }
  }

  /**
   * Round trip: when every member's token for the day can be derived and no
   * two members share a token, the role recovered from a member's token is
   * that member's role.
   */
  lemma TokenRoleRoundTrip(cfg: Config, date: string, k: nat)
    requires k < |cfg.registry|
    requires forall i :: 0 <= i < |cfg.registry| ==> GenerateDailyToken(cfg, date, cfg.registry[i].role).Success?
    requires forall i, j :: 0 <= i < j < |cfg.registry| ==>
      GenerateDailyToken(cfg, date, cfg.registry[i].role) != GenerateDailyToken(cfg, date, cfg.registry[j].role)
    ensures TokenRole(cfg, date, GenerateDailyToken(cfg, date, cfg.registry[k].role).value) == Some(cfg.registry[k].role)
  {
    var d := Derivations(cfg, date);
    EarlierDerivationsMiss(cfg, date, k);
    SweepFinds(d, d[k].value, 0, k);
  }

  /** Every derivation before member `k`'s succeeded with a different token. */
  lemma EarlierDerivationsMiss(cfg: Config, date: string, k: nat)
    requires k < |cfg.registry|
    requires forall i :: 0 <= i < |cfg.registry| ==> GenerateDailyToken(cfg, date, cfg.registry[i].role).Success?
    requires forall i, j :: 0 <= i < j < |cfg.registry| ==>
      GenerateDailyToken(cfg, date, cfg.registry[i].role) != GenerateDailyToken(cfg, date, cfg.registry[j].role)
    ensures forall j :: 0 <= j < k ==> Miss(Derivations(cfg, date), Derivations(cfg, date)[k].value, j)
  {
    var d := Derivations(cfg, date);
    forall j | 0 <= j < k
      ensures Miss(d, d[k].value, j)
    {
      assert d[j] != d[k];
    }
  }
}
