/**
 * The session service: the token kept under the browser-storage key `fit_token`, the
 * reading of its payload (the middle segment of the JSON Web Token, in the base64url
 * alphabet of section 5 of RFC 4648), the expiry rule on the `exp` claim of section 4.1.4
 * of RFC 7519, and the form menu the payload carries.
 */
module Auth {
  import opened Wrappers
  import opened Text

  const TOKEN_KEY: string := "fit_token"

  /** One granted action per flag; `true` is 'S'. */
  datatype PermisosMod = PermisosMod(crear: bool, leer: bool, actualizar: bool, eliminar: bool)

  /** One entry of the menu the token grants. */
  datatype FormularioMod = FormularioMod(
    codigo: int,
    titulo: string,
    url: Option<string>,
    esPadre: bool,
    orden: int,
    padre: Option<int>,
    permisos: PermisosMod)

  /** The claims the console reads; any may be missing from a decoded payload. */
  datatype TokenPayload = TokenPayload(exp: Option<int>, formularios: Option<seq<FormularioMod>>)

  // ------------------------------------------------------------------ base64url

  function UrlCharToStd(c: char): (r: char)
    ensures c == '-' ==> r == '+'
    ensures c == '_' ==> r == '/'
    ensures c != '-' && c != '_' ==> r == c
  {
    if c == '-' then '+' else if c == '_' then '/' else c
  }

  /** `replace(/-/g, '+').replace(/_/g, '/')`: the base64url alphabet back to the standard
      one, character by character. */
  function UrlToStd(s: string): (r: string)
    ensures |r| == |s|
    ensures forall i :: 0 <= i < |s| ==> r[i] == UrlCharToStd(s[i])
  {
    seq(|s|, i requires 0 <= i < |s| => UrlCharToStd(s[i]))
  }

  /** The standard alphabet to base64url, the encoder's direction. */
  function StdToUrl(s: string): (r: string)
    ensures |r| == |s|
  {
    seq(|s|, i requires 0 <= i < |s| => if s[i] == '+' then '-' else if s[i] == '/' then '_' else s[i])
  }

  /** After the mapping no base64url-only character is left. */
  lemma UrlToStdLeavesNoUrlChars(s: string)
    ensures '-' !in UrlToStd(s) && '_' !in UrlToStd(s)
  {
  }

  /** Text encoded in base64url (which never holds '+' or '/') maps back to the standard
      text it was made from, and the standard text maps to base64url and back. */
  lemma UrlToStdInverts(s: string)
    ensures '-' !in s && '_' !in s ==> UrlToStd(StdToUrl(s)) == s
    ensures '+' !in s && '/' !in s ==> StdToUrl(UrlToStd(s)) == s
  {
    if '-' !in s && '_' !in s {
      forall i | 0 <= i < |s| ensures UrlToStd(StdToUrl(s))[i] == s[i] {
        assert s[i] != '-' && s[i] != '_';
      }
    }
    if '+' !in s && '/' !in s {
      forall i | 0 <= i < |s| ensures StdToUrl(UrlToStd(s))[i] == s[i] {
        assert s[i] != '+' && s[i] != '/';
      }
    }
  }

  // ------------------------------------------------------------------ the payload

  /** `decodePayload`: the second '.'-separated segment, mapped to the standard alphabet,
      decoded by `decode` (base64 decoding, UTF-8 and `JSON.parse` together, any of which may
      fail). A token without a second segment has no payload. */
  function DecodePayload(jwt: string, decode: string -> Option<TokenPayload>): (r: Option<TokenPayload>)
    ensures |Split(jwt, '.')| < 2 ==> r.None?
    ensures |Split(jwt, '.')| >= 2 ==> r == decode(UrlToStd(Split(jwt, '.')[1]))
  {
    var parts := Split(jwt, '.');
    if |parts| < 2 then None else decode(UrlToStd(parts[1]))
  }

  /** A header, payload and signature segment free of dots read back the payload segment. */
  lemma DecodeThreeSegments(h: string, p: string, sig: string, decode: string -> Option<TokenPayload>)
    requires '.' !in h && '.' !in p && '.' !in sig
    ensures DecodePayload(h + "." + p + "." + sig, decode) == decode(UrlToStd(p))
  {
    var xs := [h, p, sig];
    assert xs[1..] == [p, sig] && xs[1..][1..] == [sig];
    assert Join(xs[1..], ".") == p + "." + sig;
    assert h + "." + p + "." + sig == Join(xs, ".");
    SplitJoin([h, p, sig], '.');
  }

  /** `!payload?.exp`: no payload, no claim, or a zero claim. */
  predicate NoExpiry(p: Option<TokenPayload>) {
    p.None? || p.value.exp.None? || p.value.exp.value == 0
  }

  /** `isAuthenticated` on the stored token and the clock: no token (or an empty one) is
      out; a token whose payload sets no expiry is in; otherwise the expiry, in seconds,
      must lie after the current second. */
  function Authenticated(token: Option<string>, nowMs: int, decode: string -> Option<TokenPayload>): (r: bool)
    ensures token.None? || token.value == "" ==> !r
    ensures token.Some? && token.value != "" && NoExpiry(DecodePayload(token.value, decode)) ==> r
    ensures token.Some? && token.value != "" && !NoExpiry(DecodePayload(token.value, decode)) ==>
      (r <==> nowMs < DecodePayload(token.value, decode).value.exp.value * 1000)
  {
    if token.None? || token.value == "" then false
    else
      var payload := DecodePayload(token.value, decode);
      if NoExpiry(payload) then true
      else
        var nowSec := nowMs / 1000;
        ExpiryInSeconds(payload.value.exp.value, nowMs);
        payload.value.exp.value > nowSec
  }

  /** `exp > Math.floor(nowMs / 1000)` is the same as the current millisecond lying before
      the first millisecond of second `exp`. */
  lemma ExpiryInSeconds(exp: int, nowMs: int)
    ensures exp > nowMs / 1000 <==> nowMs < exp * 1000
  {
    var q, m := nowMs / 1000, nowMs % 1000;
    assert nowMs == q * 1000 + m && 0 <= m < 1000;
    if exp > q {
      assert exp * 1000 >= (q + 1) * 1000;
    } else {
      assert exp * 1000 <= q * 1000;
    }
  }

  /** A session valid now was valid at every earlier moment: time only ends sessions. */
  lemma AuthenticatedEarlier(token: Option<string>, earlier: int, later: int, decode: string -> Option<TokenPayload>)
    requires earlier <= later
    ensures Authenticated(token, later, decode) ==> Authenticated(token, earlier, decode)
  {
  }

  /** Every token with an expiry lapses: from its expiry second on, it is out. */
  lemma ExpiredAfterExp(token: string, nowMs: int, decode: string -> Option<TokenPayload>)
    requires token != "" && !NoExpiry(DecodePayload(token, decode))
    requires nowMs >= DecodePayload(token, decode).value.exp.value * 1000
    ensures !Authenticated(Some(token), nowMs, decode)
  {
  }

  /** `getFormulariosFromToken`: the payload's menu, or empty without a token or a payload. */
  function FormulariosFrom(token: Option<string>, decode: string -> Option<TokenPayload>): (r: seq<FormularioMod>)
    ensures token.None? || token.value == "" ==> r == []
    ensures token.Some? && token.value != "" && DecodePayload(token.value, decode).None? ==> r == []
    ensures token.Some? && token.value != "" && DecodePayload(token.value, decode).Some? ==>
      r == DecodePayload(token.value, decode).value.formularios.GetOr([])
  {
    if token.None? || token.value == "" then []
    else
      var p := DecodePayload(token.value, decode);
      if p.None? then [] else p.value.formularios.GetOr([])
  }

  // ------------------------------------------------------------------ the service

  /** The service over its storage slot. */
  class AuthService {
    /** What the browser storage holds under `TOKEN_KEY`. */
    var stored: Option<string>

    constructor (initial: Option<string>)
      ensures stored == initial
    {
      stored := initial;
    }

    /** `getToken` */
    function GetToken(): (r: Option<string>)
      reads this
      ensures r == stored
    {
      stored
    }

    /** `saveToken`: the next `getToken` returns exactly this token. */
    method SaveToken(token: string)
      modifies this
      ensures GetToken() == Some(token)
    {
      stored := Some(token);
    }

    /** `clearSession`: the next `getToken` finds nothing, and the session is over at
        every moment. */
    method ClearSession()
      modifies this
      ensures GetToken().None?
      ensures forall nowMs: int, decode: string -> Option<TokenPayload> :: !Authenticated(GetToken(), nowMs, decode)
    {
      stored := None;
    }

    function IsAuthenticated(nowMs: int, decode: string -> Option<TokenPayload>): (r: bool)
      reads this
      ensures stored.None? ==> !r
      ensures r == Authenticated(stored, nowMs, decode)
    {
      Authenticated(stored, nowMs, decode)
    }

    function GetFormulariosFromToken(decode: string -> Option<TokenPayload>): (r: seq<FormularioMod>)
      reads this
      ensures stored.None? ==> r == []
      ensures r == FormulariosFrom(stored, decode)
    {
      FormulariosFrom(stored, decode)
    }
  }

  /** Saving a token whose payload sets no expiry starts a session that holds at every
      moment, until the session is cleared. */
  lemma SavedWithoutExpiry(token: string, nowMs: int, decode: string -> Option<TokenPayload>)
    requires token != "" && NoExpiry(DecodePayload(token, decode))
    ensures Authenticated(Some(token), nowMs, decode)
  {
  }
}
