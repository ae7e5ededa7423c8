/**
 * The authentication gate (`protect`) and the role gate (`authorize`) in front of every handler.
 * The token check of the JSON Web Token library is an oracle: a function from the token to either a
 * rejection (the library throws) or the decoded payload's `id` claim.
 */
module AuthMiddleware {
  import opened Wrappers
  import opened Strings
  import opened UserModel

  /** What the token oracle answers: it throws, or it yields a payload whose `id` may be missing. */
  datatype Decoded = Rejected | Payload(id: Option<string>)

  /** The verdict of a middleware: call `next` with the authenticated user, or reply with a status. */
  datatype Gate = Next(user: User) | Deny(status: int)

  /** `s.split(" ")`: the pieces between single spaces (two adjacent spaces give an empty piece). */
  function SplitOnSpace(s: string): (parts: seq<string>)
    ensures |parts| >= 1
    decreases |s|
  {
    if |s| == 0 then [""]
    else if s[0] == ' ' then [""] + SplitOnSpace(s[1..])
    else
      var rest := SplitOnSpace(s[1..]);
      [[s[0]] + rest[0]] + rest[1..]
  }

  predicate NoSpace(s: string) {
    forall i :: 0 <= i < |s| ==> s[i] != ' '
  }

  /** Splitting and joining with single spaces are inverse: the pieces hold no space and join back to `s`. */
  lemma {:induction false} SplitOnSpaceJoin(s: string)
    ensures forall k :: 0 <= k < |SplitOnSpace(s)| ==> NoSpace(SplitOnSpace(s)[k])
    ensures Join(SplitOnSpace(s), " ") == s
    decreases |s|
  {
    if |s| > 0 {
      var rest := SplitOnSpace(s[1..]);
      SplitOnSpaceJoin(s[1..]);
      if s[0] == ' ' {
        assert SplitOnSpace(s) == [""] + rest;
        assert (["" ] + rest)[1..] == rest;
        assert s == [s[0]] + s[1..];
      } else {
        var parts := SplitOnSpace(s);
        assert parts == [[s[0]] + rest[0]] + rest[1..];
        assert NoSpace([s[0]] + rest[0]);
        if |rest| == 1 {
          assert Join(parts, " ") == [s[0]] + rest[0];
          assert Join(rest, " ") == rest[0];
        } else {
          assert parts[1..] == rest[1..];
          assert Join(rest, " ") == rest[0] + " " + Join(rest[1..], " ");
          assert Join(parts, " ") == ([s[0]] + rest[0]) + " " + Join(rest[1..], " ");
        }
        assert s == [s[0]] + s[1..];
      }
    }
  }

  /** The first piece of a text that starts with a space-free word `w` followed by a space. */
  lemma {:induction false} SplitAfterWord(w: string, rest: string)
    requires NoSpace(w)
    ensures SplitOnSpace(w + " " + rest) == [w] + SplitOnSpace(rest)
    decreases |w|
  {
    if |w| == 0 {
      assert w + " " + rest == [' '] + rest;
      assert ([' '] + rest)[1..] == rest;
    } else {
      var s := w + " " + rest;
      assert s[1..] == w[1..] + " " + rest;
      SplitAfterWord(w[1..], rest);
      assert [w[0]] + w[1..] == w;
    }
  }

  /** The pieces of a space-free text: just the text. */
  lemma {:induction false} SplitNoSpace(w: string)
    requires NoSpace(w)
    ensures SplitOnSpace(w) == [w]
    decreases |w|
  {
    if |w| > 0 {
      SplitNoSpace(w[1..]);
      assert [w[0]] + w[1..] == w;
    }
  }

  /** The token of an `Authorization` header: the second space-separated piece when it starts "Bearer ". */
  function ExtractBearer(header: Option<string>): (token: Option<string>)
    ensures token.Some? <==> header.Some? && StartsWith(header.value, "Bearer ")
  {
    match header
    case None => None
    case Some(h) =>
      if StartsWith(h, "Bearer ") then
        var parts := SplitOnSpace(h);
        SplitAfterWord("Bearer", h[7..]);
        assert h == "Bearer" + " " + h[7..];
        Some(parts[1])
      else None
  }

  /**
   * A header "Bearer <token> ..." yields exactly the token, the text up to the next space (section 2.1
   * of RFC 6750 puts a single space between the scheme and the token).
   */
  lemma BearerRoundTrip(token: string, rest: Option<string>)
    requires NoSpace(token)
    ensures var h := if rest.Some? then "Bearer " + token + " " + rest.value else "Bearer " + token;
            ExtractBearer(Some(h)) == Some(token)
  {
    var h := if rest.Some? then "Bearer " + token + " " + rest.value else "Bearer " + token;
    assert h == "Bearer" + " " + h[7..];
    SplitAfterWord("Bearer", h[7..]);
    if rest.Some? {
      assert h[7..] == token + " " + rest.value;
      SplitAfterWord(token, rest.value);
    } else {
      assert h[7..] == token;
      SplitNoSpace(token);
    }
  }

  /** An extracted token never holds a space. */
  lemma ExtractedTokenHasNoSpace(header: Option<string>)
    requires ExtractBearer(header).Some?
    ensures NoSpace(ExtractBearer(header).value)
  {
    var parts := SplitOnSpace(header.value);
    SplitOnSpaceJoin(header.value);
    SplitAfterWord("Bearer", header.value[7..]);
    assert header.value == "Bearer" + " " + header.value[7..];
    assert ExtractBearer(header).value == parts[1];
    assert NoSpace(parts[1]);
  }

  /** protect: the header's token, checked by the oracle, must name an existing user. */
  function Protect(header: Option<string>, verify: string -> Decoded, users: map<string, User>): Gate {
    match ExtractBearer(header)
    case None => Deny(401)
    case Some(token) =>
      if token == "" then Deny(401)
      else match verify(token)
        case Rejected => Deny(403)
        case Payload(id) =>
          if id.None? || id.value == "" then Deny(401)
          else if id.value !in users then Deny(401)
          else Next(users[id.value])
  }

  /**
   * `next` runs exactly for a non-empty bearer token whose payload names an existing user, and with
   * that user; every refusal is 401, except a token the oracle rejects, which is 403.
   */
  lemma ProtectOutcome(header: Option<string>, verify: string -> Decoded, users: map<string, User>)
    ensures var g := Protect(header, verify, users);
            var t := ExtractBearer(header);
            && (g.Next? <==>
                  t.Some? && t.value != "" && verify(t.value).Payload? &&
                  verify(t.value).id.Some? && verify(t.value).id.value != "" && verify(t.value).id.value in users)
            && (g.Next? ==> g.user == users[verify(t.value).id.value])
            && (g.Deny? ==> g.status == 401 || g.status == 403)
            && (g == Deny(403) <==> t.Some? && t.value != "" && verify(t.value).Rejected?)
  {
  }

  /** A header without the "Bearer " scheme never reaches the oracle. */
  lemma NoBearerNoToken(header: string, verify: string -> Decoded, users: map<string, User>)
    requires !StartsWith(header, "Bearer ")
    ensures Protect(Some(header), verify, users) == Deny(401)
  {
  }

  /** authorize(...roles): 401 without an authenticated user, `next` for an allowed role, 403 otherwise. */
  function Authorize(user: Option<User>, roles: seq<Role>): (g: Gate)
    ensures user.None? ==> g == Deny(401)
    ensures user.Some? ==> (g == Next(user.value) <==> user.value.role in roles)
    ensures user.Some? && user.value.role !in roles ==> g == Deny(403)
  {
    match user
    case None => Deny(401)
    case Some(u) => if u.role in roles then Next(u) else Deny(403)
  }
}
