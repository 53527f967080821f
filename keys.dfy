/** Short keys: where they come from (the first six characters of a random
    UUID) and which request paths the redirect route accepts as a key. */
module Keys {

  /** Number of characters kept from the UUID, and the length the route demands. */
  const KeyLength: nat := 6

  /** A lowercase hexadecimal digit, the alphabet of a UUID's groups. */
  predicate IsHexDigit(c: char) {
    '0' <= c <= '9' || 'a' <= c <= 'f'
  }

  /** A character of the route pattern's class `[0-9a-z]`. */
  predicate IsKeyChar(c: char) {
    '0' <= c <= '9' || 'a' <= c <= 'z'
  }

  /** Positions of the four dashes in the 8-4-4-4-12 string form of a UUID. */
  predicate IsDashPosition(i: int) {
    i == 8 || i == 13 || i == 18 || i == 23
  }

  /** The string `crypto.randomUUID()` produces: the RFC 4122 (section 3)
      string form in lowercase, version 4 (random) and the RFC 4122 variant. */
  predicate IsUuidString(u: string) {
    && |u| == 36
    && (forall i :: 0 <= i < |u| ==> if IsDashPosition(i) then u[i] == '-' else IsHexDigit(u[i]))
    && u[14] == '4'
    && u[19] in {'8', '9', 'a', 'b'}
  }

  /** The route pattern `[0-9a-z]{6}` of the redirect handler, anchored to
      the whole path segment. */
  predicate MatchesKeyRoute(segment: string) {
    |segment| == KeyLength && forall i :: 0 <= i < |segment| ==> IsKeyChar(segment[i])
  }

  /** `uuid.substring(0, 6)`: JavaScript clamps the end index to the string's
      length, so a shorter string is returned whole. */
  function KeyOf(uuid: string): (key: string)
    ensures |key| <= KeyLength && key <= uuid
    ensures |uuid| >= KeyLength ==> |key| == KeyLength
    ensures |uuid| < KeyLength ==> key == uuid
  {
    if |uuid| < KeyLength then uuid else uuid[..KeyLength]
  }

  /** A generated key is six lowercase hex digits, so it passes the redirect
      route's pattern. */
  lemma GeneratedKeyMatchesRoute(uuid: string)
    requires IsUuidString(uuid)
    ensures |KeyOf(uuid)| == KeyLength
    ensures forall i :: 0 <= i < KeyLength ==> IsHexDigit(KeyOf(uuid)[i])
    ensures MatchesKeyRoute(KeyOf(uuid))
  {
  }

  /** Upper-case letters and five-character segments do not reach the
      redirect handler; a six-character lowercase segment does. */
  lemma RouteBoundaryExamples()
    ensures !MatchesKeyRoute("ABCDEF")
    ensures !MatchesKeyRoute("abcde")
    ensures !MatchesKeyRoute("abc-ef")
    ensures MatchesKeyRoute("abcdef")
    ensures MatchesKeyRoute("0a9z5k")
  {
    assert !IsKeyChar("ABCDEF"[0]);
    assert !IsKeyChar("abc-ef"[3]);
  }

  /** The path segment `create` fits the key pattern, so a GET of `/create`
      reaches the redirect handler; but no generated key is ever `create`,
      since `r` and `t` are not hex digits. */
  lemma CreateIsNeverGenerated(uuid: string)
    requires IsUuidString(uuid)
    ensures MatchesKeyRoute("create")
    ensures KeyOf(uuid) != "create"
  {
    GeneratedKeyMatchesRoute(uuid);
    assert !IsHexDigit("create"[1]);
  }
}
