/** The QR payload of a credential scan, `clientId:clientSecret:hostname[:port...]`,
    and the parse-and-validate step that turns a decoded scan into the three
    credential fields or rejects it. */
module Payload {
  import opened JsString

  /** The three fields one scan provisions. */
  datatype Creds = Creds(clientId: string, clientSecret: string, hostname: string)

  /** What a parse can produce: every field non-empty, and the first two free of `:`. */
  predicate WellFormed(c: Creds)
  {
    c.clientId != "" && c.clientSecret != "" && c.hostname != ""
    && ColonFree(c.clientId) && ColonFree(c.clientSecret)
  }

  /** The payload format a provisioning QR code carries. */
  function Encode(c: Creds): string
  {
    c.clientId + ":" + c.clientSecret + ":" + c.hostname
  }

  /** Split the payload on `:`, shift off the client id and the client secret,
      re-join the rest with `:` as the hostname, and reject the scan unless
      all three are non-empty. `None` is a scan whose `data` is null or undefined. */
  function Parse(data: Option<string>): (r: Option<Creds>)
    ensures data.None? ==> r.None?
    ensures r.Some? ==> r.value.clientId != "" && r.value.clientSecret != "" && r.value.hostname != ""
  {
    FromParts(Split(OrEmpty(data)))
  }

  /** The shift, shift, join and falsy check applied to the pieces of a split payload. */
  function FromParts(parts: seq<string>): (r: Option<Creds>)
    ensures |parts| < 3 ==> r.None?
    ensures r.Some? ==> r.value.clientId == parts[0] && r.value.clientSecret == parts[1]
  {
    var (clientId, afterId) := Shift(parts);
    var (clientSecret, afterSecret) := Shift(afterId);
    var hostname := Join(afterSecret);
    if !Truthy(clientId) || !Truthy(clientSecret) || hostname == "" then None
    else Some(Creds(clientId.value, clientSecret.value, hostname))
  }

  /** The first two pieces become the client id and secret, the rest the hostname. */
  lemma {:induction false} FromPartsFields(id: string, secret: string, rest: seq<string>)
    ensures FromParts([id, secret] + rest)
         == if id != "" && secret != "" && Join(rest) != "" then Some(Creds(id, secret, Join(rest))) else None
  {
    var parts := [id, secret] + rest;
    assert parts[1..] == [secret] + rest;
    assert parts[1..][1..] == rest;
  }

  /** An accepted scan is well formed and its fields, put back together with
      `:`, are exactly the scanned text: the split/shift/join is lossless. */
  lemma {:induction false} ParseSound(data: Option<string>, c: Creds)
    requires Parse(data) == Some(c)
    ensures data == Some(Encode(c))
    ensures WellFormed(c)
  {
    var s := OrEmpty(data);
    var parts := Split(s);
    assert |parts| >= 3;
    assert parts[0] == c.clientId && parts[1] == c.clientSecret;
    assert Join(parts[2..]) == c.hostname;
    assert parts[1..][1..] == parts[2..];
    assert Join(parts) == parts[0] + ":" + (parts[1] + ":" + Join(parts[2..]));
    JoinSplit(s);
    assert s == c.clientId + ":" + c.clientSecret + ":" + c.hostname;
    assert data != None;
    assert ColonFree(parts[0]) && ColonFree(parts[1]);
  }

  /** Every well-formed credential set survives encoding into a QR payload and
      parsing it back. */
  lemma {:induction false} ParseComplete(c: Creds)
    requires WellFormed(c)
    ensures Parse(Some(Encode(c))) == Some(c)
  {
    var tail := c.clientSecret + ":" + c.hostname;
    assert Encode(c) == c.clientId + ":" + tail;
    SplitAfterField(c.clientId, tail);
    SplitAfterField(c.clientSecret, c.hostname);
    assert Split(Encode(c)) == [c.clientId, c.clientSecret] + Split(c.hostname);
    FromPartsFields(c.clientId, c.clientSecret, Split(c.hostname));
    JoinSplit(c.hostname);
  }

  /** The client id and secret never hold a colon; every colon after the second
      one stays in the hostname. */
  lemma {:induction false} HostnameKeepsColons(s: string, c: Creds)
    requires Parse(Some(s)) == Some(c)
    ensures ':' !in c.clientId && ':' !in c.clientSecret
    ensures ColonCount(s) >= 2
    ensures ColonCount(c.hostname) == ColonCount(s) - 2
  {
    ParseSound(Some(s), c);
    ColonCountFields(c.clientId, c.clientSecret, c.hostname);
    ColonFreeMeansNoColon(c.clientId);
    ColonFreeMeansNoColon(c.clientSecret);
  }

  /** A payload with fewer than two colons is always rejected. */
  lemma {:induction false} FewColonsRejected(s: string)
    requires ColonCount(s) < 2
    ensures Parse(Some(s)) == None
  {
  }

  /** A scan is accepted exactly when it is the encoding of a well-formed
      credential set. */
  lemma {:induction false} AcceptedIffEncoding(s: string, c: Creds)
    ensures Parse(Some(s)) == Some(c) <==> WellFormed(c) && s == Encode(c)
  {
    if Parse(Some(s)) == Some(c) {
      ParseSound(Some(s), c);
    }
    if WellFormed(c) && s == Encode(c) {
      ParseComplete(c);
    }
  }

  /** A port after the hostname survives parsing. */
  lemma {:induction false} HostWithPortExample()
    ensures Parse(Some("id:secret:host:8443")) == Some(Creds("id", "secret", "host:8443"))
  {
    var c := Creds("id", "secret", "host:8443");
    assert Encode(c) == "id:secret:host:8443";
    ParseComplete(c);
  }

  /** A plain three-field payload gives its three fields. */
  lemma {:induction false} PlainHostExample()
    ensures Parse(Some("id:secret:host")) == Some(Creds("id", "secret", "host"))
  {
    var c := Creds("id", "secret", "host");
    assert Encode(c) == "id:secret:host";
    ParseComplete(c);
  }

  /** A missing or empty payload is rejected. */
  lemma {:induction false} EmptyPayloadExample()
    ensures Parse(None) == None
    ensures Parse(Some("")) == None
  {
    FewColonsRejected("");
  }

  /** A payload whose second field is empty is rejected, whatever follows. */
  lemma {:induction false} EmptySecretRejected(id: string, rest: string)
    requires ColonFree(id)
    ensures Parse(Some(id + "::" + rest)) == None
  {
    assert id + "::" + rest == id + ":" + ("" + ":" + rest);
    SplitAfterField(id, "" + ":" + rest);
    SplitAfterField("", rest);
    assert Split(id + "::" + rest) == [id, ""] + Split(rest);
    FromPartsFields(id, "", Split(rest));
  }

  /** A payload that ends right after its second separator has an empty
      hostname and is rejected. */
  lemma {:induction false} EmptyHostnameRejected(id: string, secret: string)
    requires ColonFree(id) && ColonFree(secret)
    ensures Parse(Some(id + ":" + secret + ":")) == None
  {
    assert id + ":" + secret + ":" == id + ":" + (secret + ":" + "");
    SplitAfterField(id, secret + ":" + "");
    SplitAfterField(secret, "");
    assert Split("") == [""];
    assert Split(id + ":" + secret + ":") == [id, secret] + [""];
    FromPartsFields(id, secret, [""]);
  }

  /** The rejected examples: an empty secret and an empty hostname. */
  lemma {:induction false} RejectedExamples()
    ensures Parse(Some("id::host")) == None
    ensures Parse(Some("id:secret:")) == None
  {
    EmptySecretRejected("id", "host");
    assert "id" + "::" + "host" == "id::host";
    EmptyHostnameRejected("id", "secret");
    assert "id" + ":" + "secret" + ":" == "id:secret:";
  }
}
