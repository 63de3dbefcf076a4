/**
 * Server-side helpers (lib/utils/auth.ts): role tests over a roles list, the part of
 * JWT payload decoding that selects and re-alphabets the payload segment, and the
 * expiry test. The base64 and JSON decoding themselves are a parameter, `parse`.
 */
module AuthUtils {
  import opened Wrappers
  import opened Claims

  // ---------------------------------------------------------------------------
  // Roles

  /** `userRoles.includes(requiredRole)`: exact, case-sensitive element test; never true of `[]`. */
  function HasRole(userRoles: seq<string>, requiredRole: string): (held: bool)
    ensures held <==> exists i :: 0 <= i < |userRoles| && userRoles[i] == requiredRole
    ensures userRoles == [] ==> !held
  {
    requiredRole in userRoles
  }

  /** `hasRole(userRoles, 'admin')`. */
  function IsAdmin(userRoles: seq<string>): (held: bool)
    ensures held <==> exists i :: 0 <= i < |userRoles| && userRoles[i] == "admin"
  {
    HasRole(userRoles, AdminRole)
  }

  /** `hasRole(userRoles, 'user')`. */
  function IsUser(userRoles: seq<string>): (held: bool)
    ensures held <==> exists i :: 0 <= i < |userRoles| && userRoles[i] == "user"
  {
    HasRole(userRoles, UserRole)
  }

  /** Adding roles never takes a role away, wherever they are added. */
  lemma HasRoleMonotone(userRoles: seq<string>, more: seq<string>, role: string)
    ensures HasRole(userRoles, role) ==> HasRole(userRoles + more, role) && HasRole(more + userRoles, role)
  {
  }

  // ---------------------------------------------------------------------------
  // Splitting a token at '.'

  /** The index of the first '.', if any. */
  function FirstDot(s: string): (r: Option<nat>)
    ensures r.None? <==> '.' !in s
    ensures r.Some? ==> r.value < |s| && s[r.value] == '.' && '.' !in s[..r.value]
  {
    if s == [] then None
    else if s[0] == '.' then Some(0)
    else match FirstDot(s[1..])
      case None => None
      case Some(i) =>
        assert s[..i + 1] == [s[0]] + s[1..][..i];
        Some(i + 1)
  }

  /** `s.split('.')`: the text between separators, never an empty list. */
  function Split(s: string): (parts: seq<string>)
    ensures |parts| >= 1
    ensures forall i :: 0 <= i < |parts| ==> '.' !in parts[i]
    ensures Join(parts) == s
    decreases |s|
  {
    match FirstDot(s)
    case None => [s]
    case Some(i) =>
      var rest := Split(s[i + 1..]);
      assert Join([s[..i]] + rest) == s[..i] + "." + Join(rest) by {
        assert ([s[..i]] + rest)[1..] == rest;
      }
      assert s == s[..i] + "." + s[i + 1..];
      [s[..i]] + rest
  }

  /** `parts.join('.')`, the inverse of `Split`. */
  function Join(parts: seq<string>): string
    requires |parts| >= 1
  {
    if |parts| == 1 then parts[0] else parts[0] + "." + Join(parts[1..])
  }

  /** The first '.' of `p + "." + t` is the one after `p` when `p` has none. */
  lemma {:induction false} FirstDotAfter(p: string, t: string)
    requires '.' !in p
    ensures FirstDot(p + "." + t) == Some(|p|)
    decreases |p|
  {
    if p != [] {
      assert (p + "." + t)[1..] == p[1..] + "." + t;
      assert forall c :: c in p[1..] ==> c in p;
      FirstDotAfter(p[1..], t);
    }
  }

  /** Splitting undoes joining whenever no part contains the separator. */
  lemma {:induction false} SplitJoin(parts: seq<string>)
    requires |parts| >= 1
    requires forall i :: 0 <= i < |parts| ==> '.' !in parts[i]
    ensures Split(Join(parts)) == parts
    decreases |parts|
  {
    if |parts| > 1 {
      var s := Join(parts);
      var p := parts[0];
      FirstDotAfter(p, Join(parts[1..]));
      assert s[|p| + 1..] == Join(parts[1..]);
      SplitJoin(parts[1..]);
      assert s[..|p|] == p;
    }
  }

  /** `token.split('.')[1]`: the payload segment, or nothing when there is no '.'. */
  function PayloadSegment(token: string): (seg: Option<string>)
    ensures seg.None? <==> '.' !in token
    ensures seg.Some? ==> '.' !in seg.value
    ensures seg.Some? ==> exists h :: '.' !in h && (token == h + "." + seg.value || h + "." + seg.value + "." <= token)
  {
    var parts := Split(token);
    if |parts| > 1 then
      assert |parts| == 2 ==> token == parts[0] + "." + parts[1];
      assert |parts| > 2 ==> parts[0] + "." + parts[1] + "." <= token by {
        if |parts| > 2 {
          assert parts[1..][1..] == parts[2..];
          assert token == parts[0] + "." + parts[1] + "." + Join(parts[2..]);
        }
      }
      Some(parts[1])
    else
      assert token == parts[0];
      None
  }

  // ---------------------------------------------------------------------------
  // The base64url alphabet step

  /** `s.replace(/from/g, to)`. */
  function ReplaceAll(s: string, from: char, to: char): (r: string)
    ensures |r| == |s|
    ensures forall i :: 0 <= i < |s| ==> r[i] == if s[i] == from then to else s[i]
  {
    if s == [] then [] else [if s[0] == from then to else s[0]] + ReplaceAll(s[1..], from, to)
  }

  /** The character-level view of the two replaces: base64url's two characters to base64's. */
  function StdChar(c: char): char {
    if c == '-' then '+' else if c == '_' then '/' else c
  }

  /** `base64Url.replace(/-/g, '+').replace(/_/g, '/')`. */
  function Base64UrlToBase64(s: string): (r: string)
    ensures |r| == |s|
    ensures forall i :: 0 <= i < |s| ==> r[i] == StdChar(s[i])
    ensures '-' !in r && '_' !in r
  {
    ReplaceAll(ReplaceAll(s, '-', '+'), '_', '/')
  }

  /** The reverse substitution, which base64url encoders apply. */
  function UrlChar(c: char): char {
    if c == '+' then '-' else if c == '/' then '_' else c
  }

  /** On genuine base64url text (no '+' or '/') the step is undone by the reverse substitution. */
  lemma Base64UrlRoundTrip(s: string)
    requires '+' !in s && '/' !in s
    ensures |Base64UrlToBase64(s)| == |s|
    ensures forall i :: 0 <= i < |s| ==> UrlChar(Base64UrlToBase64(s)[i]) == s[i]
  {
  }

  // ---------------------------------------------------------------------------
  // Decoding and expiry

  /** The one payload claim the expiry test reads. */
  datatype Payload = Payload(exp: Option<int>)

  /**
   * `decodeToken`: the payload segment, re-alphabeted, handed to `parse` (atob,
   * decodeURIComponent and JSON.parse). `parse` yields None for input it rejects
   * and for a payload that is JSON `null` or another falsy value; a token without
   * a second segment fails before `parse` is reached.
   */
  function DecodeToken(token: string, parse: string -> Option<Payload>): (r: Option<Payload>)
    ensures '.' !in token ==> r.None?
    ensures '.' in token ==> r == parse(Base64UrlToBase64(PayloadSegment(token).value))
    ensures r.Some? ==> exists seg :: PayloadSegment(token) == Some(seg) && parse(Base64UrlToBase64(seg)) == r
  {
    match PayloadSegment(token)
    case None => None
    case Some(seg) => parse(Base64UrlToBase64(seg))
  }

  /**
   * `isTokenExpired`, with `Date.now()` as the parameter `nowMs`. A missing or zero
   * `exp` (falsy in JavaScript) counts as expired. `Math.floor(nowMs / 1000)` is
   * Dafny's `/`, which floors for a positive divisor.
   */
  function IsTokenExpired(token: string, nowMs: int, parse: string -> Option<Payload>): (expired: bool)
    ensures DecodeToken(token, parse).None? ==> expired
    ensures '.' !in token ==> expired
    ensures forall p :: DecodeToken(token, parse) == Some(p) && (p.exp.None? || p.exp == Some(0)) ==> expired
    ensures forall p, e :: DecodeToken(token, parse) == Some(p) && p.exp == Some(e) && e != 0 ==>
              (expired <==> (e + 1) * 1000 <= nowMs)
  {
    var decoded := DecodeToken(token, parse);
    if decoded.None? || decoded.value.exp.None? || decoded.value.exp.value == 0 then true
    else
      var currentTime := nowMs / 1000;
      decoded.value.exp.value < currentTime
  }

  /** A token whose `exp` is the current second is still valid. */
  lemma NotExpiredWithinItsSecond(token: string, p: Payload, e: int, nowMs: int, parse: string -> Option<Payload>)
    requires DecodeToken(token, parse) == Some(p) && p.exp == Some(e) && e != 0
    requires nowMs / 1000 == e
    ensures !IsTokenExpired(token, nowMs, parse)
  {
  }

  /** Once expired, a token stays expired as time advances. */
  lemma ExpiryIsPermanent(token: string, nowMs: int, laterMs: int, parse: string -> Option<Payload>)
    requires nowMs <= laterMs
    requires IsTokenExpired(token, nowMs, parse)
    ensures IsTokenExpired(token, laterMs, parse)
  {
  }
}
