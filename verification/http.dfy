/** The parts of Go's `net/http` the client touches, as values: header maps, requests,
    responses, and the outcome of one round trip. */
module Http {
  import opened Wrappers
  import opened Json

  /** `http.Header`: canonical key to the list of values. */
  type Header = map<string, seq<string>>

  /** The token characters of section 5.6.2 of RFC 9110 (`tchar`); a key made of anything else
      is left as written by Go's key canonicalisation. */
  predicate IsTokenChar(c: char) {
    || ('a' <= c <= 'z')
    || ('A' <= c <= 'Z')
    || ('0' <= c <= '9')
    || c in "!#$%&'*+-.^_`|~"
  }

  function UpperAscii(c: char): char {
    if 'a' <= c <= 'z' then (c as int - 32) as char else c
  }

  function LowerAscii(c: char): char {
    if 'A' <= c <= 'Z' then (c as int + 32) as char else c
  }

  /** Capitalise the letter at the start and after every hyphen, lower-case the rest. */
  function Capitalise(k: string): (r: string)
    ensures |r| == |k|
  {
    seq(|k|, i requires 0 <= i < |k| =>
      if i == 0 || k[i - 1] == '-' then UpperAscii(k[i]) else LowerAscii(k[i]))
  }

  /** `http.CanonicalHeaderKey`: "content-type" becomes "Content-Type"; a key holding a
      character outside `tchar` is returned unchanged. */
  function CanonicalKey(k: string): (r: string)
    ensures |r| == |k|
  {
    if forall i :: 0 <= i < |k| ==> IsTokenChar(k[i]) then Capitalise(k) else k
  }

  /** Case mapping keeps a character's class: token characters stay token characters, and only
      a hyphen maps to a hyphen. */
  lemma CaseMapping(c: char)
    ensures UpperAscii(UpperAscii(c)) == UpperAscii(c) && UpperAscii(LowerAscii(c)) == UpperAscii(c)
    ensures LowerAscii(LowerAscii(c)) == LowerAscii(c) && LowerAscii(UpperAscii(c)) == LowerAscii(c)
    ensures IsTokenChar(c) ==> IsTokenChar(UpperAscii(c)) && IsTokenChar(LowerAscii(c))
    ensures (UpperAscii(c) == '-' <==> c == '-') && (LowerAscii(c) == '-' <==> c == '-')
  {
  }

  /** Capitalising an already capitalised key leaves it as it is. */
  lemma CapitaliseStable(k: string)
    ensures Capitalise(Capitalise(k)) == Capitalise(k)
  {
    var r := Capitalise(k);
    forall i | 0 <= i < |r|
      ensures Capitalise(r)[i] == r[i]
    {
      CaseMapping(k[i]);
      if i > 0 {
        CaseMapping(k[i - 1]);
        assert r[i - 1] == '-' <==> k[i - 1] == '-';
      }
    }
  }

  /** Canonicalising twice changes nothing more than canonicalising once. */
  lemma CanonicalKeyIdempotent(k: string)
    ensures CanonicalKey(CanonicalKey(k)) == CanonicalKey(k)
  {
    if forall i :: 0 <= i < |k| ==> IsTokenChar(k[i]) {
      var r := Capitalise(k);
      forall i | 0 <= i < |r|
        ensures IsTokenChar(r[i])
      {
        CaseMapping(k[i]);
      }
      CapitaliseStable(k);
    }
  }

  /** A hyphen starts a new word: the two sides are capitalised on their own. */
  lemma CapitaliseAtHyphen(a: string, b: string)
    ensures Capitalise(a + "-" + b) == Capitalise(a) + "-" + Capitalise(b)
  {
    var k := a + "-" + b;
    var r := Capitalise(a) + "-" + Capitalise(b);
    assert |Capitalise(k)| == |r|;
    forall i | 0 <= i < |k|
      ensures Capitalise(k)[i] == r[i]
    {
      if i > |a| + 1 {
        assert k[i] == b[i - |a| - 1] && k[i - 1] == b[i - |a| - 2];
      } else if i == |a| + 1 {
        assert k[i] == b[0] && k[i - 1] == '-';
      } else if i < |a| {
        assert k[i] == a[i];
        if i > 0 {
          assert k[i - 1] == a[i - 1];
        }
      }
    }
  }

  /** A key made of token characters is capitalised. */
  lemma TokenKey(k: string)
    requires forall i :: 0 <= i < |k| ==> IsTokenChar(k[i])
    ensures CanonicalKey(k) == Capitalise(k)
  {
  }

  lemma AuthorizationCapitalised()
    ensures Capitalise("authorization") == "Authorization"
  {
  }

  lemma AuthorizationTokens()
    ensures forall i :: 0 <= i < |"authorization"| ==> IsTokenChar("authorization"[i])
  {
  }

  /** "authorization" and "Authorization" name the same header. */
  lemma AuthorizationKey()
    ensures CanonicalKey("authorization") == "Authorization"
    ensures CanonicalKey("Authorization") == "Authorization"
  {
    AuthorizationTokens();
    TokenKey("authorization");
    AuthorizationCapitalised();
    CanonicalKeyIdempotent("authorization");
  }

  lemma WordsCapitalised()
    ensures Capitalise("content") == "Content"
    ensures Capitalise("type") == "Type"
  {
  }

  lemma ContentTypeTokens()
    ensures forall i :: 0 <= i < |"content-type"| ==> IsTokenChar("content-type"[i])
  {
  }

  /** "content-type" and "Content-Type" name the same header. */
  lemma ContentTypeKey()
    ensures CanonicalKey("content-type") == "Content-Type"
    ensures CanonicalKey("Content-Type") == "Content-Type"
  {
    ContentTypeTokens();
    TokenKey("content-type");
    assert "content-type" == "content" + "-" + "type";
    CapitaliseAtHyphen("content", "type");
    WordsCapitalised();
    CanonicalKeyIdempotent("content-type");
  }

  /** `Header.Set(key, value)`: the canonical key now holds exactly `[value]`, and every other
      key keeps what it had. */
  function SetHeader(h: Header, key: string, value: string): (r: Header)
    ensures CanonicalKey(key) in r && r[CanonicalKey(key)] == [value]
    ensures r.Keys == h.Keys + {CanonicalKey(key)}
    ensures forall k :: k in h && k != CanonicalKey(key) ==> r[k] == h[k]
  {
    h[CanonicalKey(key) := [value]]
  }

  datatype Payload = NoBody | JsonBody(doc: Json)

  /** An outgoing `*http.Request`; `verb` is its method. `header` is `None` for Go's nil map. The query is kept as
      `url.Values` rather than encoded into the URL. */
  datatype Request = Request(
    verb: string,
    url: string,
    query: map<string, seq<string>>,
    header: Option<Header>,
    body: Payload)

  /** What `io.ReadAll` makes of a response body: its text, or a read error. */
  datatype Body = Readable(text: string) | Unreadable(cause: string)

  /** A received `*http.Response`: status code, the `Content-Encoding` header value, the body, and
      the error (if any) that closing the body reports. */
  datatype Response = Response(
    status: int,
    contentEncoding: string,
    body: Body,
    closeError: Option<string>)

  /** The outcome of one round trip: a transport error, or a response. */
  datatype Reply = SendFailed(cause: string) | Received(response: Response)

  const StatusOK := 200
  const StatusCreated := 201
  const StatusNoContent := 204
}
