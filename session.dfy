/**
 * The signed session logon (src/api/session.rs). The Ed25519 signature over the
 * query string, its PKCS8 key decoding and base64 encoding are foreign library
 * calls; here a signature is the symbolic pair of the key and the exact
 * message it was computed over.
 */
module Session {
  import opened Wrappers
  import opened Text

  /** The credential: an API key and the private signing key (PEM text). */
  datatype Logon = Logon(apiKey: string, permKey: string)

  /** The opaque signature of `message` under `key`. */
  datatype Signature = Signature(key: string, message: string)

  datatype SignedLogon = SignedLogon(apiKey: string, signature: Signature, timestamp: int, recvWindow: int)

  datatype SignOn = SignOn(apiKey: string, recvWindow: int, signature: Signature, timestamp: int)

  /** The method name a signed logon is sent under. */
  const LogonMethod := "session.logon"

  /** `apiKey=<key>&recvWindow=<window>&timestamp=<ms>`, the string that gets signed. */
  function QueryString(apiKey: string, recvWindow: int, timestamp: int): string {
    "apiKey=" + apiKey + "&recvWindow=" + IntToString(recvWindow) + "&timestamp=" + IntToString(timestamp)
  }

  /** `Logon::sign`, with the clock reading `now` passed in. */
  function Sign(auth: Logon, recvWindow: int, now: int): (r: SignedLogon)
    ensures r.apiKey == auth.apiKey && r.recvWindow == recvWindow && r.timestamp == now
    ensures r.signature == Signature(auth.permKey, QueryString(auth.apiKey, recvWindow, now))
  {
    SignedLogon(auth.apiKey, Signature(auth.permKey, QueryString(auth.apiKey, recvWindow, now)), now, recvWindow)
  }

  /** `SignOn::new`: the same string, with the caller's timestamp. */
  function NewSignOn(apiKey: string, privateKey: string, recvWindow: int, timestamp: int): (r: SignOn)
    ensures r.apiKey == apiKey && r.recvWindow == recvWindow && r.timestamp == timestamp
    ensures r.signature == Signature(privateKey, QueryString(apiKey, recvWindow, timestamp))
  {
    SignOn(apiKey, recvWindow, Signature(privateKey, QueryString(apiKey, recvWindow, timestamp)), timestamp)
  }

  /** Splits `s` before the first `c`. */
  function SplitFirst(s: string, c: char): (r: Option<(string, string)>)
    ensures r.Some? ==> r.value.0 + r.value.1 == s && c !in r.value.0
  {
    match IndexOf(s, c)
    case None => None
    case Some(i) => assert s[..i] + s[i..] == s; Some((s[..i], s[i..]))
  }

  function ParseTimestamp(tail: string): Option<int> {
    if StartsWith(tail, "&timestamp=") then ParseInt(tail[11..]) else None
  }

  function ParseWindowAndTimestamp(tail: string): Option<(int, int)> {
    if !StartsWith(tail, "&recvWindow=") then None
    else
      match SplitFirst(tail[12..], '&')
      case None => None
      case Some((w, rest)) =>
        match (ParseInt(w), ParseTimestamp(rest))
        case (Some(window), Some(t)) => Some((window, t))
        case _ => None
  }

  /** Reads the three fields back out of a logon query string. */
  function ParseQueryString(qs: string): Option<(string, int, int)> {
    if !StartsWith(qs, "apiKey=") then None
    else
      match SplitFirst(qs[7..], '&')
      case None => None
      case Some((key, tail)) =>
        match ParseWindowAndTimestamp(tail)
        case None => None
        case Some((w, t)) => Some((key, w, t))
  }

  lemma NoAmpersandInInt(n: int)
    ensures '&' !in IntToString(n)
  {
    var s := IntToString(n);
    forall k | 0 <= k < |s| ensures s[k] != '&' {
    }
  }

  lemma SplitFirstAfterPrefix(prefix: string, c: char, rest: string)
    requires c !in prefix
    ensures SplitFirst(prefix + [c] + rest, c) == Some((prefix, [c] + rest))
  {
    var s := prefix + [c] + rest;
    IndexOfAfterPrefix(prefix, c, rest);
    assert s[..|prefix|] == prefix;
    assert s[|prefix|..] == [c] + rest;
  }

  lemma TimestampRoundTrip(t: int)
    ensures ParseTimestamp("&timestamp=" + IntToString(t)) == Some(t)
  {
    var tail := "&timestamp=" + IntToString(t);
    assert tail[..11] == "&timestamp=";
    assert tail[11..] == IntToString(t);
    IntRoundTrip(t);
  }

  lemma WindowAndTimestampRoundTrip(w: int, t: int)
    ensures ParseWindowAndTimestamp("&recvWindow=" + IntToString(w) + "&timestamp=" + IntToString(t)) == Some((w, t))
  {
    var ws, rest := IntToString(w), "&timestamp=" + IntToString(t);
    var tail := "&recvWindow=" + ws + rest;
    assert tail == "&recvWindow=" + IntToString(w) + "&timestamp=" + IntToString(t);
    assert StartsWith(tail, "&recvWindow=") by {
      assert tail[..12] == "&recvWindow=";
    }
    assert tail[12..] == ws + ['&'] + rest[1..];
    NoAmpersandInInt(w);
    SplitFirstAfterPrefix(ws, '&', rest[1..]);
    assert ['&'] + rest[1..] == rest;
    assert SplitFirst(tail[12..], '&') == Some((ws, rest));
    IntRoundTrip(w);
    TimestampRoundTrip(t);
    assert ParseInt(ws) == Some(w);
    assert ParseTimestamp(rest) == Some(t);
  }

  /** A key without '&' followed by a tail that parses is read back as that key and the tail's fields. */
  lemma KeyThenTail(key: string, tail: string, w: int, t: int)
    requires '&' !in key && tail != [] && tail[0] == '&'
    requires ParseWindowAndTimestamp(tail) == Some((w, t))
    ensures ParseQueryString("apiKey=" + (key + tail)) == Some((key, w, t))
  {
    var qs := "apiKey=" + (key + tail);
    assert qs[..7] == "apiKey=";
    assert StartsWith(qs, "apiKey=");
    assert ['&'] + tail[1..] == tail;
    assert qs[7..] == key + ['&'] + tail[1..];
    SplitFirstAfterPrefix(key, '&', tail[1..]);
    assert SplitFirst(qs[7..], '&') == Some((key, tail));
  }

  /** The signed string determines key, window and timestamp, provided the key holds no '&'. */
  lemma QueryStringRoundTrip(apiKey: string, recvWindow: int, timestamp: int)
    requires '&' !in apiKey
    ensures ParseQueryString(QueryString(apiKey, recvWindow, timestamp)) == Some((apiKey, recvWindow, timestamp))
  {
    var tail := "&recvWindow=" + IntToString(recvWindow) + "&timestamp=" + IntToString(timestamp);
    assert QueryString(apiKey, recvWindow, timestamp) == "apiKey=" + (apiKey + tail);
    WindowAndTimestampRoundTrip(recvWindow, timestamp);
    KeyThenTail(apiKey, tail, recvWindow, timestamp);
  }

  /** What `Logon::sign` signs can be read back as the logon's own key, window and timestamp. */
  lemma SignedMessageCarriesFields(auth: Logon, recvWindow: int, now: int)
    requires '&' !in auth.apiKey
    ensures var r := Sign(auth, recvWindow, now);
      ParseQueryString(r.signature.message) == Some((r.apiKey, r.recvWindow, r.timestamp))
  {
    QueryStringRoundTrip(auth.apiKey, recvWindow, now);
  }

  /** The same holds for `SignOn::new`, which signs the identical format. */
  lemma SignOnCarriesFields(apiKey: string, privateKey: string, recvWindow: int, timestamp: int)
    requires '&' !in apiKey
    ensures var r := NewSignOn(apiKey, privateKey, recvWindow, timestamp);
      ParseQueryString(r.signature.message) == Some((r.apiKey, r.recvWindow, r.timestamp))
  {
    QueryStringRoundTrip(apiKey, recvWindow, timestamp);
  }
}
