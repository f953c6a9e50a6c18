/** The billing provider's Basic-Authentication middleware (the scheme of
    section 2 of RFC 7617): `Authorization: Basic base64(user:password)` is
    decoded and compared with the configured username and password. */
module ChargebeeAuth {
  import opened Js
  import opened Http
  import opened Text

  /** `Buffer.from(s, 'base64').toString('ascii')`: library code outside the
      model, taken as a parameter. */
  type Decoder = string -> string

  const MissingCredentials: Outcome := ErrorWithMessage(401, "Unauthorized", "Missing credentials")
  const ConfigurationError: Outcome := Error(500, "Server configuration error")
  const InvalidCredentials: Outcome := ErrorWithMessage(401, "Unauthorized", "Invalid credentials")

  const Scheme: string := "Basic "

  /** `[username, password]` destructured from the decoded text; an array
      with a single element leaves `password` undefined. */
  datatype Credentials = Credentials(username: string, password: Option<string>)

  /** The header passes the `startsWith('Basic ')` guard. */
  predicate WellFormed(authorization: Option<string>) {
    IsSet(authorization) && StartsWith(authorization.value, Scheme)
  }

  /** `authHeader.split(' ')[1]`: the text after the scheme up to the next
      space, or to the end of the header when there is none. */
  function Token(header: string): (t: string)
    requires StartsWith(header, Scheme)
    ensures StartsWith(header[|Scheme|..], t) && ' ' !in t
    ensures |Scheme| + |t| == |header| || header[|Scheme| + |t|] == ' '
  {
    var rest := header[|Scheme|..];
    assert header == "Basic" + [' '] + rest;
    SplitAfterField("Basic", ' ', rest);
    FirstFieldIsPrefix(rest, ' ');
    Split(header, ' ')[1]
  }

  /** `const [username, password] = credentials.split(':')`: the username
      is the text before the first colon, the password the text between the
      first and the second colon, and whatever follows a second colon is lost. */
  function ParseCredentials(decoded: string): (c: Credentials)
    ensures ':' !in c.username
    ensures c.password.None? <==> ':' !in decoded
    ensures c.password.None? ==> c.username == decoded
    ensures c.password.Some? ==> ':' !in c.password.value
    ensures c.password.Some? ==>
      decoded == c.username + ":" + c.password.value ||
      StartsWith(decoded, c.username + ":" + c.password.value + ":")
  {
    var fields := Split(decoded, ':');
    SplitFieldsExcludeSeparator(decoded, ':', 0);
    CountZeroIff(decoded, ':');
    JoinSplit(decoded, ':');
    if |fields| == 1 then
      Credentials(fields[0], None)
    else
      SplitFieldsExcludeSeparator(decoded, ':', 1);
      JoinTwoFields(fields, ':');
      Credentials(fields[0], Some(fields[1]))
  }

  /** The join of two or more fields starts with the first two. */
  lemma {:induction false} JoinTwoFields(fields: seq<string>, sep: char)
    requires |fields| >= 2
    ensures Join(fields, sep) == fields[0] + [sep] + fields[1] ||
            StartsWith(Join(fields, sep), fields[0] + [sep] + fields[1] + [sep])
  {
    var tail := fields[1..];
    if |fields| > 2 {
      var j := Join(fields, sep);
      var p := fields[0] + [sep] + fields[1] + [sep];
      assert Join(tail, sep) == fields[1] + [sep] + Join(tail[1..], sep);
      assert j == fields[0] + [sep] + (fields[1] + [sep] + Join(tail[1..], sep));
      assert j == p + Join(tail[1..], sep);
      assert j[..|p|] == p;
    }
  }

  /** `verifyChargebeeAuth`: checks the header's form first, the configuration
      second and the credentials last. */
  function VerifyChargebeeAuth(
    decode: Decoder, authorization: Option<string>,
    expectedUsername: Option<string>, expectedPassword: Option<string>
  ): (r: Outcome)
    // a missing header or another scheme is refused before anything else,
    // even when the expected credentials are not configured
    ensures !WellFormed(authorization) ==> r == MissingCredentials
    ensures WellFormed(authorization) && !(IsSet(expectedUsername) && IsSet(expectedPassword)) ==>
      r == ConfigurationError
    // acceptance: both decoded fields equal the configured values
    ensures r.Next? <==>
      WellFormed(authorization) && IsSet(expectedUsername) && IsSet(expectedPassword) &&
      ParseCredentials(decode(Token(authorization.value))) == Credentials(expectedUsername.value, Some(expectedPassword.value))
    ensures WellFormed(authorization) && IsSet(expectedUsername) && IsSet(expectedPassword) && !r.Next? ==>
      r == InvalidCredentials
  {
    if !IsSet(authorization) || !StartsWith(authorization.value, Scheme) then MissingCredentials
    else
      var credentials := ParseCredentials(decode(Token(authorization.value)));
      if !IsSet(expectedUsername) || !IsSet(expectedPassword) then ConfigurationError
      else if credentials.username == expectedUsername.value && credentials.password == Some(expectedPassword.value) then Next
      else InvalidCredentials
  }

  /** Parsing text made of a colon-free username, a colon, a colon-free
      password and optionally a further colon with anything after it. */
  lemma ParseJoined(user: string, password: string, decoded: string)
    requires ':' !in user && ':' !in password
    requires decoded == user + ":" + password || StartsWith(decoded, user + ":" + password + ":")
    ensures ParseCredentials(decoded) == Credentials(user, Some(password))
  {
    if decoded == user + ":" + password {
      SplitAfterField(user, ':', password);
      SplitWithoutSeparator(password, ':');
    } else {
      var p := user + ":" + password + ":";
      var tail := decoded[|p|..];
      assert decoded == user + [':'] + (password + [':'] + tail);
      SplitAfterField(user, ':', password + [':'] + tail);
      SplitAfterField(password, ':', tail);
    }
  }

  /** Which decoded texts authenticate: exactly `user:password`, possibly
      followed by a colon and anything at all, and only when neither
      configured value contains a colon. */
  lemma AcceptedDecodedTexts(decoded: string, user: string, password: string)
    requires user != "" && password != ""
    ensures ParseCredentials(decoded) == Credentials(user, Some(password)) <==>
      ':' !in user && ':' !in password &&
      (decoded == user + ":" + password || StartsWith(decoded, user + ":" + password + ":"))
  {
    if ':' !in user && ':' !in password &&
      (decoded == user + ":" + password || StartsWith(decoded, user + ":" + password + ":")) {
      ParseJoined(user, password, decoded);
    }
  }

  /** The token is the text between the first and the second space; the rest
      of the header is ignored. */
  lemma TokenIgnoresTrailingText(token: string, trailing: string)
    requires ' ' !in token
    ensures Token(Scheme + token + " " + trailing) == token
    ensures Token(Scheme + token) == token
  {
    var h1 := Scheme + token + " " + trailing;
    assert h1 == "Basic" + [' '] + (token + [' '] + trailing);
    SplitAfterField("Basic", ' ', token + [' '] + trailing);
    SplitAfterField(token, ' ', trailing);
    var h2 := Scheme + token;
    assert h2 == "Basic" + [' '] + token;
    SplitAfterField("Basic", ' ', token);
    SplitWithoutSeparator(token, ' ');
  }

  /** A client following RFC 7617 sends `Basic base64(user:password)`. With
      the configured credentials, such a client is admitted exactly when the
      password holds no colon: a password with a colon can never authenticate. */
  lemma ClientRoundTrip(decode: Decoder, encode: string -> string, user: string, password: string)
    requires user != "" && password != "" && ':' !in user
    requires decode(encode(user + ":" + password)) == user + ":" + password
    requires ' ' !in encode(user + ":" + password)
    ensures VerifyChargebeeAuth(decode, Some(Scheme + encode(user + ":" + password)), Some(user), Some(password)) == Next
        <==> ':' !in password
  {
    TokenIgnoresTrailingText(encode(user + ":" + password), "");
    AcceptedDecodedTexts(user + ":" + password, user, password);
  }

  // Splitting on the first colon only, as section 2 of RFC 7617 prescribes
  // (the user-id cannot contain a colon, the password can).

  /** The username is the text before the first colon and the password all
      the text after it. */
  function ParseCredentialsFirstColon(decoded: string): (c: Credentials)
    ensures ':' !in c.username
    ensures c.password.None? <==> ':' !in decoded
    ensures c.password.None? ==> c.username == decoded
    ensures c.password.Some? ==> decoded == c.username + ":" + c.password.value
  {
    var user := Split(decoded, ':')[0];
    FirstFieldIsPrefix(decoded, ':');
    if |user| == |decoded| then
      assert user == decoded;
      Credentials(decoded, None)
    else
      assert decoded == user + ":" + decoded[|user| + 1..];
      Credentials(user, Some(decoded[|user| + 1..]))
  }

  /** Decoding `user:password` gives back both parts, whatever the password. */
  lemma FirstColonRoundTrip(user: string, password: string)
    requires ':' !in user
    ensures ParseCredentialsFirstColon(user + ":" + password) == Credentials(user, Some(password))
  {
    SplitAfterField(user, ':', password);
  }

  /** The corrected parse yields `(user, password)` exactly when the text is
      `user:password` with a colon-free user. */
  lemma FirstColonMatch(decoded: string, user: string, password: string)
    ensures ParseCredentialsFirstColon(decoded) == Credentials(user, Some(password)) <==>
      ':' !in user && decoded == user + ":" + password
  {
    if ':' !in user && decoded == user + ":" + password {
      FirstColonRoundTrip(user, password);
    }
  }

  /** On text with at most one colon the two parsers agree, so the corrected
      verifier changes nothing for credentials without a colon in the password. */
  lemma {:induction false} ParsersAgreeOnOneColon(decoded: string)
    requires Count(decoded, ':') <= 1
    ensures ParseCredentials(decoded) == ParseCredentialsFirstColon(decoded)
  {
    var fields := Split(decoded, ':');
    if |fields| == 2 {
      JoinSplit(decoded, ':');
      SplitFieldsExcludeSeparator(decoded, ':', 0);
      assert decoded == fields[0] + ":" + fields[1];
      FirstColonRoundTrip(fields[0], fields[1]);
    }
  }

  /** `verifyChargebeeAuth` with the colon split corrected; the order of the
      checks and the responses are unchanged. */
  function VerifyChargebeeAuthFirstColon(
    decode: Decoder, authorization: Option<string>,
    expectedUsername: Option<string>, expectedPassword: Option<string>
  ): (r: Outcome)
    ensures !WellFormed(authorization) ==> r == MissingCredentials
    ensures WellFormed(authorization) && !(IsSet(expectedUsername) && IsSet(expectedPassword)) ==>
      r == ConfigurationError
    // acceptance: the decoded text is exactly `user:password`
    ensures r.Next? <==>
      WellFormed(authorization) && IsSet(expectedUsername) && IsSet(expectedPassword) &&
      ':' !in expectedUsername.value &&
      decode(Token(authorization.value)) == expectedUsername.value + ":" + expectedPassword.value
    ensures WellFormed(authorization) && IsSet(expectedUsername) && IsSet(expectedPassword) && !r.Next? ==>
      r == InvalidCredentials
  {
    if !IsSet(authorization) || !StartsWith(authorization.value, Scheme) then MissingCredentials
    else
      var decoded := decode(Token(authorization.value));
      var credentials := ParseCredentialsFirstColon(decoded);
      if !IsSet(expectedUsername) || !IsSet(expectedPassword) then ConfigurationError
      else if credentials.username == expectedUsername.value && credentials.password == Some(expectedPassword.value) then Next
      else
        FirstColonMatch(decoded, expectedUsername.value, expectedPassword.value);
        InvalidCredentials
  }

  /** With the corrected split, every RFC 7617 client holding the configured
      credentials is admitted, colons in the password included. */
  lemma ClientRoundTripFirstColon(decode: Decoder, encode: string -> string, user: string, password: string)
    requires user != "" && password != "" && ':' !in user
    requires decode(encode(user + ":" + password)) == user + ":" + password
    requires ' ' !in encode(user + ":" + password)
    ensures VerifyChargebeeAuthFirstColon(decode, Some(Scheme + encode(user + ":" + password)), Some(user), Some(password)) == Next
  {
    TokenIgnoresTrailingText(encode(user + ":" + password), "");
  }
}
