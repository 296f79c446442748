/**
 * Worked examples of the handler and the logger on concrete inputs, each
 * derived from the general lemmas.
 */
module Scenarios {
  import opened Wrappers
  import opened Ascii
  import opened PhpValue
  import opened Http
  import opened Throwables
  import opened UuidPattern
  import opened Logger
  import opened Handler

  /** An unknown route answers 404 with an empty error list. */
  lemma RouteNotFoundExample()
    ensures RenderOutcome(Throwable(RouteNotFound, "", 0, "")) == Respond(JsonResponse(404, Envelope(false, Null, [])))
  {
  }

  /** Two fields with one message each give two errors, field order kept. */
  lemma ValidationExample()
    ensures var fields := [FieldMessages("name", ["required"]), FieldMessages("email", ["invalid"])];
            RenderOutcome(Throwable(Validation(fields), "", 0, ""))
              == Respond(JsonResponse(422, Envelope(false, Null, [InternalError("required"), InternalError("invalid")])))
  {
    var fields := [FieldMessages("name", ["required"]), FieldMessages("email", ["invalid"])];
    assert MessageErrors(["required"]) == [InternalError("required")];
    assert MessageErrors(["invalid"]) == [InternalError("invalid")];
    assert fields[..1] == [fields[0]] && fields[..1][..0] == [];
    assert Flatten(fields[..1]) == [InternalError("required")];
    assert Flatten(fields) == Flatten(fields[..1]) + MessageErrors(fields[1].messages);
  }

  /** A request that took a quarter of a second. */
  lemma DurationExample()
    ensures RequestDuration(Some(1_700_000_000_000), Some(1_700_000_000_250)) == Some(250)
    ensures RequestDuration(Some(1_700_000_000_250), Some(1_700_000_000_000)) == Some(250)
    ensures RequestDuration(Some(1_700_000_000_000), None) == None
  {
  }

  // The UUID of the example path, group by group.
  const G0: string := "550e8400"
  const G1: string := "e29b"
  const G2: string := "41d4"
  const G3: string := "a716"
  const G4: string := "446655440000"
  const ExampleUuid: string := "550e8400-e29b-41d4-a716-446655440000"

  /** Five groups of 8, 4, 4, 4 and 12 characters, joined, split back at the group boundaries. */
  lemma FiveGroups(a: string, b: string, c: string, d: string, e: string)
    requires |a| == 8 && |b| == 4 && |c| == 4 && |d| == 4 && |e| == 12
    ensures var h := a + b + c + d + e;
            |h| == 32 && [h[..8], h[8..12], h[12..16], h[16..20], h[20..]] == [a, b, c, d, e]
  {
    var h := a + b + c + d + e;
    assert h[..8] == a;
    assert h[8..12] == b;
    assert h[12..16] == c;
    assert h[16..20] == d;
    assert h[20..] == e;
  }

  lemma AllHexConcat(a: string, b: string)
    requires AllHex(a) && AllHex(b)
    ensures AllHex(a + b)
  {
    forall k | 0 <= k < |a + b| ensures IsHexDigit((a + b)[k]) {
      if k >= |a| {
        assert (a + b)[k] == b[k - |a|];
      }
    }
  }

  lemma ExampleGroupsAreHex()
    ensures AllHex(G0) && AllHex(G1) && AllHex(G2) && AllHex(G3) && AllHex(G4)
  {
  }

  lemma ExampleHyphenated()
    ensures G0 + "-" + (G1 + "-" + (G2 + "-" + (G3 + "-" + G4))) == ExampleUuid
  {
  }

  /** The example UUID is the hyphenated text of its 32 digits. */
  lemma ExampleText(hex: string)
    requires hex == G0 + G1 + G2 + G3 + G4
    ensures |hex| == 32 && AllHex(hex)
    ensures UuidText(hex, [true, true, true, true]) == ExampleUuid
  {
    FiveGroups(G0, G1, G2, G3, G4);
    ExampleGroupsAreHex();
    AllHexConcat(G0, G1);
    AllHexConcat(G0 + G1, G2);
    AllHexConcat(G0 + G1 + G2, G3);
    AllHexConcat(G0 + G1 + G2 + G3, G4);
    var parts := [G0, G1, G2, G3, G4];
    var d := [true, true, true, true];
    assert Shape(parts[4..], d[4..]) == G4;
    assert Shape(parts[3..], d[3..]) == G3 + "-" + G4;
    assert Shape(parts[2..], d[2..]) == G2 + "-" + (G3 + "-" + G4);
    assert Shape(parts[1..], d[1..]) == G1 + "-" + (G2 + "-" + (G3 + "-" + G4));
    ExampleHyphenated();
  }

  lemma ExampleSegments()
    ensures ApplyUuidRegexPattern("users") == "users"
    ensures ApplyUuidRegexPattern("/account") == "_account"
  {
    ShortHasNoUuid("users");
    ReplaceFixpoint("users");
    ShortHasNoUuid("/account");
    ReplaceFixpoint("/account");
    ExampleMapped();
  }

  lemma ExampleMapped()
    ensures MapSeparators("users") == "users" && MapSeparators("/account") == "_account"
  {
  }

  lemma ExampleLiterals()
    ensures "users/" == "users" + "/"
    ensures "users_UUID_account" == "users" + "_" + Placeholder + "_account"
  {
  }

  /** `users/550e8400-e29b-41d4-a716-446655440000/account` normalises to `users_UUID_account`. */
  lemma UsersAccountPath()
    ensures ApplyUuidRegexPattern("users/" + ExampleUuid + "/account") == "users_UUID_account"
  {
    var hex := G0 + G1 + G2 + G3 + G4;
    var dashes := [true, true, true, true];
    ExampleText(hex);
    ExampleLiterals();
    UuidSegmentNormalized("users", hex, dashes, "/account");
    ExampleSegments();
  }

  lemma UpperPieces()
    ensures Upper("POST_") == "POST_" && Upper("users_") == "USERS_" && Upper("_account") == "_ACCOUNT"
  {
  }

  lemma ActionArgument()
    ensures "POST" + "_" + "users_UUID_account" == "POST_" + ("users_" + Placeholder + "_account")
  {
  }

  lemma ActionLiteral()
    ensures "REQUEST_" + ("POST_" + ("USERS_" + Placeholder + "_ACCOUNT")) + "_ERROR" == "REQUEST_POST_USERS_UUID_ACCOUNT_ERROR"
  {
  }

  lemma UpperOfExampleRest(rest: string)
    requires rest == "users_" + Placeholder + "_account"
    ensures Upper(rest) == "USERS_" + Placeholder + "_ACCOUNT"
  {
    UpperPieces();
    UpperConcat("users_" + Placeholder, "_account");
    UpperConcat("users_", Placeholder);
    PlaceholderIsPlain();
    UpperIdempotent(Placeholder);
  }

  /**
   * The action key of a failed `POST` on a route declared with the literal
   * URI `users/<uuid>/account`, the UUID written into the declaration.
   */
  lemma UsersAccountAction()
    ensures RequestAction(Route(["POST"], "users/" + ExampleUuid + "/account")) == "REQUEST_POST_USERS_UUID_ACCOUNT_ERROR"
  {
    var route := Route(["POST"], "users/" + ExampleUuid + "/account");
    var arg := FirstMethodOr(route, MissingMethod) + "_" + ApplyUuidRegexPattern(route.uri);
    var rest := "users_" + Placeholder + "_account";
    UsersAccountPath();
    assert arg == "POST" + "_" + "users_UUID_account";
    ActionArgument();
    UpperPieces();
    UpperConcat("POST_", rest);
    UpperOfExampleRest(rest);
    assert Upper(arg) == "POST_" + ("USERS_" + Placeholder + "_ACCOUNT");
    ActionLiteral();
  }
}
