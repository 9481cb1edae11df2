/** The Chromium native-messaging host: messages framed by a 4-byte little-endian length,
    the active tab's domain and the browser's bundle id taken from each message, a hint
    written to the inbox, and one framed reply per message until the input ends. JSON
    parsing and printing, `urlparse(...).hostname` and the inbox file write are
    parameters. */
module NativeHost {
  import opened Wrappers
  import opened Bytes
  import opened Numerics
  import opened Text

  // ---------------------------------------------------------------------------
  // The u32 little-endian length prefix
  // ---------------------------------------------------------------------------

  const U32Limit: nat := 0x1_0000_0000

  /** `struct.pack("<I", n)`. */
  function EncodeU32LE(n: nat): (b: seq<byte>)
    requires n < U32Limit
    ensures |b| == 4
  {
    var n1 := n / 256;
    var n2 := n1 / 256;
    [(n % 256) as byte, (n1 % 256) as byte, (n2 % 256) as byte, (n2 / 256) as byte]
  }

  /** `struct.unpack("<I", b)[0]`. */
  function DecodeU32LE(b: seq<byte>): (n: nat)
    requires |b| == 4
    ensures n < U32Limit
  {
    b[0] as nat + 256 * (b[1] as nat + 256 * (b[2] as nat + 256 * b[3] as nat))
  }

  /** One byte and the rest of a number, split by 256. */
  lemma SplitByte(lo: nat, hi: nat)
    requires lo < 256
    ensures (lo + 256 * hi) % 256 == lo && (lo + 256 * hi) / 256 == hi
  {
    DivUnique(lo + 256 * hi, 256, hi);
  }

  /** Unpacking a packed length gives the length back. */
  lemma U32RoundTrip(n: nat)
    requires n < U32Limit
    ensures DecodeU32LE(EncodeU32LE(n)) == n
  {
    var n1 := n / 256;
    var n2 := n1 / 256;
    assert n == n % 256 + 256 * n1;
    assert n1 == n1 % 256 + 256 * n2;
    assert n2 == n2 % 256 + 256 * (n2 / 256);
    assert n2 / 256 < 256;
  }

  /** Packing an unpacked prefix gives the four bytes back. */
  lemma U32BytesRoundTrip(b: seq<byte>)
    requires |b| == 4
    ensures EncodeU32LE(DecodeU32LE(b)) == b
  {
    var n2 := b[2] as nat + 256 * b[3] as nat;
    var n1 := b[1] as nat + 256 * n2;
    SplitByte(b[0] as nat, n1);
    SplitByte(b[1] as nat, n2);
    SplitByte(b[2] as nat, b[3] as nat);
  }

  /** The bytes `_send_message` writes for a payload: its length, then the payload; a
      payload of 2^32 bytes or more makes `struct.pack` raise before anything is
      written. */
  function Frame(data: seq<byte>): (r: Option<seq<byte>>)
    ensures r.Some? <==> |data| < U32Limit
    ensures r.Some? ==> |r.value| == 4 + |data| && r.value[4..] == data
  {
    if |data| < U32Limit then Some(EncodeU32LE(|data|) + data) else None
  }

  // ---------------------------------------------------------------------------
  // Reading one frame
  // ---------------------------------------------------------------------------

  function MinNat(a: nat, b: nat): nat { if a <= b then a else b }

  /** `read(n)` at offset `pos`: at most `n` bytes, fewer at the end of the stream. */
  function Take(input: seq<byte>, pos: nat, n: nat): (r: seq<byte>)
    requires pos <= |input|
    ensures |r| == MinNat(n, |input| - pos)
    ensures r == input[pos..pos + |r|]
  {
    input[pos..pos + MinNat(n, |input| - pos)]
  }

  /** The framing part of `_read_message`: the payload of the frame at `pos` and where the
      stream then stands. There is none at the end of the stream, after fewer than four
      length bytes, or when the payload is shorter than its declared length. */
  function ReadFrame(input: seq<byte>, pos: nat): (r: (Option<seq<byte>>, nat))
    requires pos <= |input|
    ensures pos <= r.1 <= |input|
    ensures pos == |input| ==> r == (None, pos)
    ensures 0 < |input| - pos < 4 ==> r == (None, |input|)
    ensures r.0.Some? ==>
      && |r.0.value| < U32Limit
      && r.1 == pos + 4 + |r.0.value|
      && input[pos..pos + 4] == EncodeU32LE(|r.0.value|)
      && input[pos + 4..r.1] == r.0.value
    ensures |input| - pos >= 4 && DecodeU32LE(input[pos..pos + 4]) > |input| - pos - 4 ==> r == (None, |input|)
  {
    var rawLength := Take(input, pos, 4);
    if |rawLength| == 0 then (None, pos)
    else if |rawLength| != 4 then (None, pos + |rawLength|)
    else
      var length := DecodeU32LE(rawLength);
      var payload := Take(input, pos + 4, length);
      if |payload| != length then (None, pos + 4 + |payload|)
      else
        U32BytesRoundTrip(rawLength);
        (Some(payload), pos + 4 + length)
  }

  /** Reading a written frame gives back its payload and consumes exactly its bytes,
      whatever precedes and follows it. */
  lemma FrameRoundTrip(before: seq<byte>, data: seq<byte>, after: seq<byte>)
    requires |data| < U32Limit
    ensures var input := before + Frame(data).value + after;
      ReadFrame(input, |before|) == (Some(data), |before| + 4 + |data|)
  {
    var input := before + Frame(data).value + after;
    var pos := |before|;
    assert input[pos..pos + 4] == EncodeU32LE(|data|);
    U32RoundTrip(|data|);
    assert input[pos + 4..pos + 4 + |data|] == data;
  }

  /** A frame on its own reads back as its payload and is consumed entirely. */
  lemma FrameReadsBack(data: seq<byte>)
    requires |data| < U32Limit
    ensures ReadFrame(Frame(data).value, 0) == (Some(data), 4 + |data|)
  {
    FrameRoundTrip([], data, []);
    assert [] + Frame(data).value + [] == Frame(data).value;
  }

  // ---------------------------------------------------------------------------
  // Messages
  // ---------------------------------------------------------------------------

  /** A JSON value; objects as maps (their key order is not kept). */
  datatype JValue =
    | JNull
    | JBool(b: bool)
    | JNum(n: real)
    | JStr(s: string)
    | JArr(items: seq<JValue>)
    | JObj(fields: map<string, JValue>)

  type JObject = map<string, JValue>

  /** What the host depends on and does not implement: `json.loads` of UTF-8 bytes (None
      when decoding or parsing raises), `json.dumps(...).encode("utf-8")`,
      `urlparse(...).hostname` (or the message of the ValueError it raises on a malformed
      URL), and `_write_inbox` (the message of the exception it raises, if it does). */
  datatype Services = Services(
    loads: seq<byte> -> Option<JValue>,
    dumps: JObject -> seq<byte>,
    hostname: UrlHost,
    writeInbox: (string, string) -> Option<string>)

  /** `urllib.parse.urlparse(url).hostname`: the host, None when the URL has none, or the
      message of the ValueError raised for a malformed URL. */
  type UrlHost = string -> Result<Option<string>, string>

  /** `_read_message`: the next frame's payload parsed as a JSON object. A payload that is
      not valid JSON, or not an object, gives None just like the end of the stream. */
  function ReadMessage(svc: Services, input: seq<byte>, pos: nat): (r: (Option<JObject>, nat))
    requires pos <= |input|
    ensures pos <= r.1 <= |input|
    ensures r.0.Some? ==> r.1 >= pos + 4
    ensures r.0.Some? <==>
      && ReadFrame(input, pos).0.Some?
      && svc.loads(ReadFrame(input, pos).0.value).Some?
      && svc.loads(ReadFrame(input, pos).0.value).value.JObj?
  {
    var (payload, next) := ReadFrame(input, pos);
    match payload
    case None => (None, next)
    case Some(p) =>
      match svc.loads(p)
      case Some(JObj(fields)) => (Some(fields), next)
      case _ => (None, next)
  }

  // ---------------------------------------------------------------------------
  // Domain and bundle id
  // ---------------------------------------------------------------------------

  /** `(parsed.hostname or "").strip().lower()`, or the error `urlparse` raises. */
  function HostOf(hostname: UrlHost, url: string): (h: Result<string, string>)
    ensures h.Success? <==> hostname(url).Success?
    ensures h.Failure? ==> h.error == hostname(url).error
    ensures h.Success? ==> IsStripped(h.value) && IsLower(h.value)
  {
    match hostname(url)
    case Failure(e) => Failure(e)
    case Success(host) =>
      LowerLaws(Strip(host.GetOr("")));
      Success(Lower(Strip(host.GetOr(""))))
  }

  /** `_extract_domain`: the host of the stripped value, or failing that (and only when the
      value has no "://") the host of "https://" followed by it; None for a blank value or
      when neither gives a host. A domain found is non-empty, stripped and lower-case. The
      ValueError of either parse propagates: the retry is parsed only when the first parse
      succeeded with no host. */
  function ExtractDomain(hostname: UrlHost, value: string): (r: Result<Option<string>, string>)
    ensures AllSpace(value) ==> r == Success(None)
    ensures r.Success? && r.value.Some? ==>
      r.value.value != "" && IsStripped(r.value.value) && IsLower(r.value.value)
    ensures r.Success? && r.value.Some? ==>
      || HostOf(hostname, Strip(value)) == Success(r.value.value)
      || (!Contains(Strip(value), "://") && HostOf(hostname, "https://" + Strip(value)) == Success(r.value.value))
    ensures !AllSpace(value) && hostname(Strip(value)).Failure? ==> r == Failure(hostname(Strip(value)).error)
    ensures var host := HostOf(hostname, Strip(value));
      host.Success? && host.value != "" && !AllSpace(value) ==> r == Success(Some(host.value))
    ensures Contains(Strip(value), "://") && HostOf(hostname, Strip(value)) == Success("") ==> r == Success(None)
    ensures !AllSpace(value) && HostOf(hostname, Strip(value)) == Success("") && !Contains(Strip(value), "://") ==>
      var retry := HostOf(hostname, "https://" + Strip(value));
      r == if retry.Failure? then Failure(retry.error)
           else if retry.value != "" then Success(Some(retry.value))
           else Success(None)
  {
    var candidate := Strip(value);
    if candidate == "" then Success(None)
    else
      match HostOf(hostname, candidate)
      case Failure(e) => Failure(e)
      case Success(host) =>
        if host != "" then Success(Some(host))
        else if !Contains(candidate, "://") then
          match HostOf(hostname, "https://" + candidate)
          case Failure(e) => Failure(e)
          case Success(retry) => if retry != "" then Success(Some(retry)) else Success(None)
        else Success(None)
  }

  /** The fields that may carry the domain, in the order they are tried. */
  const DomainKeys: seq<string> := ["domain", "active_domain", "url", "active_url"]

  /** Field `key` is a string from which a domain is extracted, or whose parse raises: a
      field at which `_normalize_payload` stops trying further fields. */
  predicate Decides(hostname: UrlHost, message: JObject, key: string) {
    key in message && message[key].JStr? && ExtractDomain(hostname, message[key].s) != Success(None)
  }

  /** Which of `keys` are deciding fields. */
  function DecidingFlags(hostname: UrlHost, message: JObject, keys: seq<string>): (r: seq<bool>)
    ensures |r| == |keys|
    ensures forall i :: 0 <= i < |keys| ==> r[i] == Decides(hostname, message, keys[i])
  {
    seq(|keys|, i requires 0 <= i < |keys| => Decides(hostname, message, keys[i]))
  }

  /** The first index from `k` on where `flags` holds, if there is one. */
  function FirstTrue(flags: seq<bool>, k: nat): (r: Option<nat>)
    requires k <= |flags|
    ensures r.Some? ==> k <= r.value < |flags| && flags[r.value]
    ensures r.Some? ==> forall j :: k <= j < r.value ==> !flags[j]
    ensures r.None? ==> forall j :: k <= j < |flags| ==> !flags[j]
    decreases |flags| - k
  {
    if k == |flags| then None
    else if flags[k] then Some(k)
    else FirstTrue(flags, k + 1)
  }

  /** The outcome of the first deciding field among `keys`, a domain or the parse error:
      the fields before it are not strings or give no host, and there is no domain and no
      error exactly when no field decides. */
  function FirstDomain(hostname: UrlHost, message: JObject, keys: seq<string>): (r: Result<Option<string>, string>)
    ensures r == Success(None) <==> forall j :: 0 <= j < |keys| ==> !Decides(hostname, message, keys[j])
    ensures r.Success? && r.value.Some? ==>
      r.value.value != "" && IsStripped(r.value.value) && IsLower(r.value.value)
    ensures r != Success(None) ==>
      exists i :: 0 <= i < |keys| && Decides(hostname, message, keys[i])
        && (forall j :: 0 <= j < i ==> !Decides(hostname, message, keys[j]))
        && r == ExtractDomain(hostname, message[keys[i]].s)
  {
    var flags := DecidingFlags(hostname, message, keys);
    match FirstTrue(flags, 0)
    case None => Success(None)
    case Some(i) => ExtractDomain(hostname, message[keys[i]].s)
  }

  /** The bundle ids of the known browsers. */
  const DefaultBundleByBrowser: map<string, string> := map[
    "chrome" := "com.google.Chrome",
    "edge" := "com.microsoft.edgemac",
    "arc" := "company.thebrowser.Browser",
    "safari" := "com.apple.Safari"]

  /** The fields that may carry the bundle id, in the order they are tried. */
  const BundleKeys: seq<string> := ["bundleId", "bundle_id"]

  /** Field `key` is a string that is not blank: `isinstance(value, str) and value.strip()`. */
  predicate BundleField(message: JObject, key: string) {
    key in message && message[key].JStr? && !AllSpace(message[key].s)
  }

  /** The stripped value of the first field among `keys` that is a non-blank string, or
      "" when there is none. */
  function ExplicitBundle(message: JObject, keys: seq<string>): (r: string)
    ensures r != "" ==> IsStripped(r)
    ensures |keys| > 0 && BundleField(message, keys[0]) ==> r == Strip(message[keys[0]].s)
    ensures r == "" <==> forall i :: 0 <= i < |keys| ==> !BundleField(message, keys[i])
  {
    if |keys| == 0 then ""
    else if keys[0] in message && message[keys[0]].JStr? && Strip(message[keys[0]].s) != "" then
      Strip(message[keys[0]].s)
    else
      assert forall i :: 0 < i < |keys| ==> keys[i] == keys[1..][i - 1];
      ExplicitBundle(message, keys[1..])
  }

  /** The explicit bundle id, when there is one, is the stripped value of the first
      non-blank string field among `keys`, no field before it qualifying. */
  lemma {:induction false} ExplicitBundleFirst(message: JObject, keys: seq<string>)
    ensures var r := ExplicitBundle(message, keys);
      r != "" ==>
        exists i :: 0 <= i < |keys| && BundleField(message, keys[i])
          && (forall j :: 0 <= j < i ==> !BundleField(message, keys[j]))
          && r == Strip(message[keys[i]].s)
  {
    if |keys| > 0 && !BundleField(message, keys[0]) {
      var r := ExplicitBundle(message, keys);
      ExplicitBundleFirst(message, keys[1..]);
      if r != "" {
        var i :| 0 <= i < |keys| - 1 && BundleField(message, keys[1..][i])
          && (forall j :: 0 <= j < i ==> !BundleField(message, keys[1..][j]))
          && r == Strip(message[keys[1..][i]].s);
        assert forall j :: 0 < j <= i ==> keys[j] == keys[1..][j - 1];
        assert BundleField(message, keys[i + 1]);
      }
    }
  }

  /** The bundle id from the `browser` field: its stripped, lower-cased name looked up in
      the table, "" when it is missing, not a string or not a known browser. */
  function BrowserBundle(message: JObject): (r: string)
    ensures r != "" ==> r in DefaultBundleByBrowser.Values
  {
    if "browser" in message && message["browser"].JStr? then
      var name := Lower(Strip(message["browser"].s));
      if name in DefaultBundleByBrowser then DefaultBundleByBrowser[name] else ""
    else ""
  }

  /** The bundle id: an explicit one, else the browser's, else Chrome's; never empty. */
  function BundleId(message: JObject): (r: string)
    ensures r != ""
    ensures ExplicitBundle(message, BundleKeys) != "" ==> r == ExplicitBundle(message, BundleKeys)
    ensures ExplicitBundle(message, BundleKeys) == "" && BrowserBundle(message) != "" ==> r == BrowserBundle(message)
    ensures ExplicitBundle(message, BundleKeys) == "" && BrowserBundle(message) == "" ==> r == "com.google.Chrome"
  {
    var explicit := ExplicitBundle(message, BundleKeys);
    if explicit != "" then explicit
    else
      var browser := BrowserBundle(message);
      if browser != "" then browser else DefaultBundleByBrowser["chrome"]
  }

  /** The hint a message yields: the browser's bundle id and the tab's domain. */
  datatype Hint = Hint(bundleId: string, activeDomain: string)

  /** `_normalize_payload`: the error when the parse of the first deciding field raises;
      None when no field gives a domain; otherwise the bundle id and the domain, both
      non-empty. */
  function NormalizePayload(hostname: UrlHost, message: JObject): (r: Result<Option<Hint>, string>)
    ensures r.Failure? <==> FirstDomain(hostname, message, DomainKeys).Failure?
    ensures r.Failure? ==> r.error == FirstDomain(hostname, message, DomainKeys).error
    ensures r == Success(None) <==> forall i :: 0 <= i < |DomainKeys| ==> !Decides(hostname, message, DomainKeys[i])
    ensures r.Success? && r.value.Some? ==> r.value.value.bundleId != "" && r.value.value.activeDomain != ""
    ensures r.Success? && r.value.Some? ==> r.value.value.bundleId == BundleId(message)
    ensures r.Success? && r.value.Some? ==>
      Success(Some(r.value.value.activeDomain)) == FirstDomain(hostname, message, DomainKeys)
  {
    match FirstDomain(hostname, message, DomainKeys)
    case Failure(e) => Failure(e)
    case Success(None) => Success(None)
    case Success(Some(domain)) => Success(Some(Hint(BundleId(message), domain)))
  }

  /** A "domain" field whose first parse raises makes `_normalize_payload` raise that
      error, whatever the other fields hold. */
  lemma DomainFieldRaises(hostname: UrlHost, message: JObject)
    requires "domain" in message && message["domain"].JStr? && !AllSpace(message["domain"].s)
    requires hostname(Strip(message["domain"].s)).Failure?
    ensures NormalizePayload(hostname, message) == Failure(hostname(Strip(message["domain"].s)).error)
  {
    assert DomainKeys[0] == "domain";
    assert Decides(hostname, message, DomainKeys[0]);
  }

  // ---------------------------------------------------------------------------
  // Replies and the serving loop
  // ---------------------------------------------------------------------------

  const HostName: string := "com.codeandchill.ghosttype.context"
  const MissingDomain: string := "Missing usable domain in message."

  /** `{"ok": False, "error": error}`. */
  function ErrorReply(error: string): JObject {
    map["ok" := JBool(false), "error" := JStr(error)]
  }

  /** `{"ok": True, "host": HOST_NAME, "bundleId": ..., "activeDomain": ...}`. */
  function OkReply(hint: Hint): JObject {
    map["ok" := JBool(true), "host" := JStr(HostName),
        "bundleId" := JStr(hint.bundleId), "activeDomain" := JStr(hint.activeDomain)]
  }

  /** The reply `main` sends for one message, and the hint it writes to the inbox: the
      missing-domain error and no hint when the message has no usable domain, the
      exception's message and no hint when the inbox write raises, otherwise the host's
      name with the hint, which is then the inbox's content. When extracting the domain
      raises there is no reply: the exception leaves `main`. */
  function Reply(svc: Services, message: JObject): (r: Result<(JObject, Option<Hint>), string>)
    ensures var n := NormalizePayload(svc.hostname, message);
      n.Failure? ==> r == Failure(n.error)
    ensures NormalizePayload(svc.hostname, message) == Success(None) ==> r == Success((ErrorReply(MissingDomain), None))
    ensures var n := NormalizePayload(svc.hostname, message);
      n.Success? && n.value.Some? && svc.writeInbox(n.value.value.bundleId, n.value.value.activeDomain).Some? ==>
        r == Success((ErrorReply(svc.writeInbox(n.value.value.bundleId, n.value.value.activeDomain).value), None))
    ensures var n := NormalizePayload(svc.hostname, message);
      n.Success? && n.value.Some? && svc.writeInbox(n.value.value.bundleId, n.value.value.activeDomain).None? ==>
        r == Success((OkReply(n.value.value), n.value))
  {
    match NormalizePayload(svc.hostname, message)
    case Failure(e) => Failure(e)
    case Success(None) => Success((ErrorReply(MissingDomain), None))
    case Success(Some(hint)) =>
      if hint.bundleId == "" || hint.activeDomain == "" then Success((ErrorReply(MissingDomain), None))
      else
        match svc.writeInbox(hint.bundleId, hint.activeDomain)
        case Some(err) => Success((ErrorReply(err), None))
        case None => Success((OkReply(hint), Some(hint)))
  }

  /** How `main` ends: returning 0 when a read gives no message, with the exception
      `struct.pack` raises for a reply too long to frame, or with the ValueError
      `urlparse` raises while the domain is extracted. */
  datatype Exit = Finished | ReplyTooLong | DomainParseRaised(error: string)

  /** What a session leaves behind: everything written to stdout, the last hint in the
      inbox, how it ended and where the input stands. */
  datatype Session = Session(stdout: seq<byte>, inbox: Option<Hint>, exit: Exit, pos: nat)

  /** `main`'s loop from input offset `pos`: read a message, write its hint, send its
      reply, until a read gives no message or an exception ends the loop. */
  function Serve(svc: Services, input: seq<byte>, pos: nat, stdout: seq<byte>, inbox: Option<Hint>): (r: Session)
    requires pos <= |input|
    ensures pos <= r.pos <= |input|
    ensures |stdout| <= |r.stdout| && r.stdout[..|stdout|] == stdout
    decreases |input| - pos
  {
    var (message, next) := ReadMessage(svc, input, pos);
    match message
    case None => Session(stdout, inbox, Finished, next)
    case Some(m) =>
      match Reply(svc, m)
      case Failure(e) => Session(stdout, inbox, DomainParseRaised(e), next)
      case Success((reply, hint)) =>
        var inbox' := if hint.Some? then hint else inbox;
        match Frame(svc.dumps(reply))
        case None => Session(stdout, inbox', ReplyTooLong, next)
        case Some(frame) =>
          var r := Serve(svc, input, next, stdout + frame, inbox');
          assert (stdout + frame)[..|stdout|] == stdout;
          r
  }

  /** An input at its end ends the session at once with nothing written. */
  lemma ServeAtEnd(svc: Services, input: seq<byte>, stdout: seq<byte>, inbox: Option<Hint>)
    ensures Serve(svc, input, |input|, stdout, inbox) == Session(stdout, inbox, Finished, |input|)
  {
  }

  /** A message read at `pos` is answered with its framed reply before the session goes on
      from the end of its frame. */
  lemma ServeStep(svc: Services, input: seq<byte>, pos: nat, stdout: seq<byte>, inbox: Option<Hint>,
                  m: JObject, next: nat, reply: JObject, hint: Option<Hint>)
    requires pos <= |input| && ReadMessage(svc, input, pos) == (Some(m), next)
    requires Reply(svc, m) == Success((reply, hint)) && |svc.dumps(reply)| < U32Limit
    ensures Serve(svc, input, pos, stdout, inbox)
      == Serve(svc, input, next, stdout + Frame(svc.dumps(reply)).value, if hint.Some? then hint else inbox)
  {
  }

  /** One framed object message: the session answers it with exactly one framed reply
      (which reads back as the printed reply, by `FrameRoundTrip`) and ends at the end of
      the input. */
  lemma ServeOneMessage(svc: Services, payload: seq<byte>, m: JObject, reply: JObject, hint: Option<Hint>,
                        inbox: Option<Hint>)
    requires |payload| < U32Limit && svc.loads(payload) == Some(JObj(m))
    requires Reply(svc, m) == Success((reply, hint)) && |svc.dumps(reply)| < U32Limit
    ensures var s := Serve(svc, Frame(payload).value, 0, [], inbox);
      s == Session(Frame(svc.dumps(reply)).value, if hint.Some? then hint else inbox, Finished, 4 + |payload|)
  {
    var input := Frame(payload).value;
    FrameReadsBack(payload);
    ServeStep(svc, input, 0, [], inbox, m, |input|, reply, hint);
    ServeAtEnd(svc, input, [] + Frame(svc.dumps(reply)).value, if hint.Some? then hint else inbox);
    assert [] + Frame(svc.dumps(reply)).value == Frame(svc.dumps(reply)).value;
  }

  /** A frame whose payload is not a JSON object ends the session with nothing written for
      it, even when more messages follow. */
  lemma NonObjectEndsSession(svc: Services, payload: seq<byte>, rest: seq<byte>, stdout: seq<byte>, inbox: Option<Hint>)
    requires |payload| < U32Limit
    requires svc.loads(payload).None? || !svc.loads(payload).value.JObj?
    ensures var s := Serve(svc, Frame(payload).value + rest, 0, stdout, inbox);
      s.exit == Finished && s.stdout == stdout && s.inbox == inbox
  {
    FrameRoundTrip([], payload, rest);
    assert [] + Frame(payload).value + rest == Frame(payload).value + rest;
  }

  /** A framed JSON object at the start of the input is read back as that object. */
  lemma ReadFramedObject(svc: Services, payload: seq<byte>, rest: seq<byte>, m: JObject)
    requires |payload| < U32Limit && svc.loads(payload) == Some(JObj(m))
    ensures ReadMessage(svc, Frame(payload).value + rest, 0) == (Some(m), 4 + |payload|)
  {
    FrameRoundTrip([], payload, rest);
    assert [] + Frame(payload).value + rest == Frame(payload).value + rest;
  }

  /** A message read at `pos` for which no reply can be made ends the session with the
      error, before anything is written for it. */
  lemma ServeRaises(svc: Services, input: seq<byte>, pos: nat, stdout: seq<byte>, inbox: Option<Hint>,
                    m: JObject, next: nat)
    requires pos <= |input| && ReadMessage(svc, input, pos) == (Some(m), next)
    requires Reply(svc, m).Failure?
    ensures Serve(svc, input, pos, stdout, inbox) == Session(stdout, inbox, DomainParseRaised(Reply(svc, m).error), next)
  {
  }

  /** A message whose domain extraction raises ends the session with that error, nothing
      written for it and the inbox untouched, even when more messages follow. */
  lemma ParseErrorEndsSession(svc: Services, payload: seq<byte>, rest: seq<byte>, stdout: seq<byte>,
                              inbox: Option<Hint>, m: JObject)
    requires |payload| < U32Limit && svc.loads(payload) == Some(JObj(m))
    requires NormalizePayload(svc.hostname, m).Failure?
    ensures var s := Serve(svc, Frame(payload).value + rest, 0, stdout, inbox);
      s == Session(stdout, inbox, DomainParseRaised(NormalizePayload(svc.hostname, m).error), 4 + |payload|)
  {
    ReadFramedObject(svc, payload, rest, m);
    ServeRaises(svc, Frame(payload).value + rest, 0, stdout, inbox, m, 4 + |payload|);
  }

  /** The host's process state: its standard input and how far it has been read, its
      standard output, and the hint in the inbox file. */
  class Host {
    var stdin: seq<byte>
    var pos: nat
    var stdout: seq<byte>
    var inbox: Option<Hint>

    ghost predicate Valid()
      reads this
    {
      pos <= |stdin|
    }

    constructor (input: seq<byte>, hint: Option<Hint>)
      ensures Valid()
      ensures stdin == input && pos == 0 && stdout == [] && inbox == hint
    {
      stdin, pos, stdout, inbox := input, 0, [], hint;
    }

    /** `sys.stdin.buffer.read(n)`. */
    method Read(n: nat) returns (chunk: seq<byte>)
      requires Valid()
      modifies this
      ensures stdin == old(stdin) && stdout == old(stdout) && inbox == old(inbox)
      ensures Valid()
      ensures chunk == Take(stdin, old(pos), n) && pos == old(pos) + |chunk|
    {
      chunk := stdin[pos..pos + MinNat(n, |stdin| - pos)];
      pos := pos + |chunk|;
    }

    /** `_read_message`. */
    method ReadMessageFrom(svc: Services) returns (message: Option<JObject>)
      requires Valid()
      modifies this
      ensures stdin == old(stdin) && stdout == old(stdout) && inbox == old(inbox)
      ensures Valid()
      ensures (message, pos) == ReadMessage(svc, stdin, old(pos))
    {
      var rawLength := Read(4);
      if |rawLength| == 0 {
        return None;
      }
      if |rawLength| != 4 {
        return None;
      }
      var length := DecodeU32LE(rawLength);
      var payload := Read(length);
      if |payload| != length {
        return None;
      }
      U32BytesRoundTrip(rawLength);
      match svc.loads(payload) {
        case Some(JObj(fields)) => message := Some(fields);
        case _ => message := None;
      }
    }

    /** `_send_message`: the printed message framed onto stdout; nothing is written when it
        is too long to frame. */
    method SendMessage(svc: Services, message: JObject) returns (ok: bool)
      modifies this
      ensures ok <==> Frame(svc.dumps(message)).Some?
      ensures stdout == (if ok then old(stdout) + Frame(svc.dumps(message)).value else old(stdout))
      ensures stdin == old(stdin) && pos == old(pos) && inbox == old(inbox)
    {
      var data := svc.dumps(message);
      if |data| >= U32Limit {
        return false;
      }
      stdout := stdout + EncodeU32LE(|data|);
      stdout := stdout + data;
      ok := true;
    }

    /** `main`: serve messages until a read gives none or an exception ends it. */
    method Run(svc: Services) returns (exit: Exit)
      requires Valid()
      modifies this
      ensures Valid() && stdin == old(stdin)
      ensures Session(stdout, inbox, exit, pos) == Serve(svc, old(stdin), old(pos), old(stdout), old(inbox))
    {
      while true
        invariant Valid() && stdin == old(stdin)
        invariant Serve(svc, stdin, pos, stdout, inbox) == Serve(svc, old(stdin), old(pos), old(stdout), old(inbox))
        decreases |stdin| - pos
      {
        ghost var start := pos;
        var message := ReadMessageFrom(svc);
        if message.None? {
          return Finished;
        }
        var answer := Reply(svc, message.value);
        if answer.Failure? {
          return DomainParseRaised(answer.error);
        }
        var (reply, hint) := answer.value;
        if hint.Some? {
          inbox := hint;
        }
        var ok := SendMessage(svc, reply);
        if !ok {
          return ReplyTooLong;
        }
        assert pos >= start + 4;
      }
    }
  }
}
