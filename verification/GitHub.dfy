/** GitHub webhooks end to end: the handler's admission checks and header encoding, the
    storage's parse loop over the headers, and the round trip between them. The UUID parser, the
    HMAC and the JSON decoder are parameters. */
module GitHub {
  import opened Decimal
  import opened Headers
  import opened Wrappers

  datatype Row = Row(
    payload: string,
    event: string,
    targetType: string,
    userLogin: string,
    deliveryId: Uuid,
    targetId: nat,
    hookId: nat,
    userId: Int64,
    kafkaOffset: nat,
    kafkaPartition: nat)

  // ------------------------------------------------------------- storage

  /** Whether the parse loop accepts this header. */
  predicate Parses(h: Header) {
    && (h.key == "target-id" || h.key == "hook-id" ==> ParseUint(h.value).Some?)
    && (h.key == "sender-id" ==> ParseInt(h.value).Some?)
  }

  /** The number in the last header with this key, or zero. */
  function UintOf(hs: seq<Header>, key: string): nat {
    match Last(hs, key, Any)
    case None => 0
    case Some(text) => (match ParseUint(text) case None => 0 case Some(n) => n)
  }

  function IntOf(hs: seq<Header>, key: string): Int64 {
    match Last(hs, key, Any)
    case None => 0
    case Some(text) => (match ParseInt(text) case None => 0 case Some(n) => n)
  }

  /** The row a header list stands for when every header parses: per column, the last value. */
  function RowOf(id: Uuid, m: ConsumerMessage): Row {
    Row(m.value,
        TextOr(Last(m.headers, "event", Any), ""),
        TextOr(Last(m.headers, "target-type", Any), ""),
        TextOr(Last(m.headers, "sender-login", Any), ""),
        id,
        UintOf(m.headers, "target-id"),
        UintOf(m.headers, "hook-id"),
        IntOf(m.headers, "sender-id"),
        m.offset,
        m.partition)
  }

  ghost predicate AllParse(hs: seq<Header>) {
    forall i :: 0 <= i < |hs| ==> Parses(hs[i])
  }

  ghost predicate FirstBad(hs: seq<Header>, h: Header) {
    exists i :: 0 <= i < |hs| && hs[i] == h && !Parses(h) && AllParse(hs[..i])
  }

  /** What one header that parses changes in the row. */
  function Assigned(row: Row, h: Header): Row
    requires Parses(h)
  {
    if h.key == "event" then row.(event := h.value)
    else if h.key == "target-type" then row.(targetType := h.value)
    else if h.key == "target-id" then row.(targetId := ParseUint(h.value).value)
    else if h.key == "hook-id" then row.(hookId := ParseUint(h.value).value)
    else if h.key == "sender-login" then row.(userLogin := h.value)
    else if h.key == "sender-id" then row.(userId := ParseInt(h.value).value)
    else row
  }

  /** Reading one more header changes the looked-up row as that header says, and no more. */
  lemma OneMoreHeader(id: Uuid, m: ConsumerMessage, h: Header)
    requires Parses(h)
    ensures RowOf(id, m.(headers := m.headers + [h])) == Assigned(RowOf(id, m), h)
  {
    LastAppend(m.headers, h, "event", Any);
    LastAppend(m.headers, h, "target-type", Any);
    LastAppend(m.headers, h, "target-id", Any);
    LastAppend(m.headers, h, "hook-id", Any);
    LastAppend(m.headers, h, "sender-login", Any);
    LastAppend(m.headers, h, "sender-id", Any);
  }

  /** What the columns of the row are, header by header: the text or number in the last header of
      their key, and empty or zero without one. */
  lemma RowMeans(id: Uuid, m: ConsumerMessage)
    ensures var hs, row := m.headers, RowOf(id, m);
            && row.payload == m.value && row.deliveryId == id
            && row.kafkaOffset == m.offset && row.kafkaPartition == m.partition
            && (forall i :: AtLast(hs, i, "event", {}) ==> row.event == hs[i].value)
            && (Absent(hs, "event", {}) ==> row.event == "")
            && (forall i :: AtLast(hs, i, "target-type", {}) ==> row.targetType == hs[i].value)
            && (Absent(hs, "target-type", {}) ==> row.targetType == "")
            && (forall i :: AtLast(hs, i, "sender-login", {}) ==> row.userLogin == hs[i].value)
            && (Absent(hs, "sender-login", {}) ==> row.userLogin == "")
  {
    LastMeans(m.headers, "event", Any, {});
    LastMeans(m.headers, "target-type", Any, {});
    LastMeans(m.headers, "sender-login", Any, {});
  }

  lemma NumbersMean(id: Uuid, m: ConsumerMessage)
    requires AllParse(m.headers)
    ensures var hs, row := m.headers, RowOf(id, m);
            && (forall i :: AtLast(hs, i, "target-id", {}) ==> ParseUint(hs[i].value) == Some(row.targetId))
            && (Absent(hs, "target-id", {}) ==> row.targetId == 0)
            && (forall i :: AtLast(hs, i, "hook-id", {}) ==> ParseUint(hs[i].value) == Some(row.hookId))
            && (Absent(hs, "hook-id", {}) ==> row.hookId == 0)
            && (forall i :: AtLast(hs, i, "sender-id", {}) ==> ParseInt(hs[i].value) == Some(row.userId))
            && (Absent(hs, "sender-id", {}) ==> row.userId == 0)
  {
    LastMeans(m.headers, "target-id", Any, {});
    LastMeans(m.headers, "hook-id", Any, {});
    LastMeans(m.headers, "sender-id", Any, {});
  }

  /** The cases of the loop's body: what one header makes of the row, or that it does not parse. */
  method ReadHeader(before: Row, h: Header) returns (failed: bool, row: Row)
    ensures failed <==> !Parses(h)
    ensures !failed ==> row == Assigned(before, h)
  {
    var key, value := h.key, h.value;
    failed, row := false, before;
    if key == "event" {
      row := row.(event := value);
    } else if key == "target-type" {
      row := row.(targetType := value);
    } else if key == "target-id" {
      var parsed := ParseUint(value);
      if parsed.None? { failed := true; } else { row := row.(targetId := parsed.value); }
    } else if key == "hook-id" {
      var parsed := ParseUint(value);
      if parsed.None? { failed := true; } else { row := row.(hookId := parsed.value); }
    } else if key == "sender-login" {
      row := row.(userLogin := value);
    } else if key == "sender-id" {
      var parsed := ParseInt(value);
      if parsed.None? { failed := true; } else { row := row.(userId := parsed.value); }
    }
  }

  /** The storage's loop over the headers, with its early exits. */
  method PrepareGitHubPayload(parseUuid: string -> Option<Uuid>, message: ConsumerMessage)
    returns (r: Result<Row, Error>)
    ensures r.Ok? <==> parseUuid(message.key).Some? && AllParse(message.headers)
    ensures r.Ok? <==>
              && parseUuid(message.key).Some?
              && (forall h :: h in message.headers && h.key in {"target-id", "hook-id"} ==> ParseUint(h.value).Some?)
              && (forall h :: h in message.headers && h.key == "sender-id" ==> ParseInt(h.value).Some?)
    ensures r.Ok? ==> r.value == RowOf(parseUuid(message.key).value, message)
    ensures r == Err(BadKey(message.key)) <==> parseUuid(message.key).None?
    ensures r.Err? && r.error.BadHeader? ==> FirstBad(message.headers, r.error.header)
  {
    var deliveryId := parseUuid(message.key);
    if deliveryId.None? {
      return Err(BadKey(message.key));
    }
    var row := Row(message.value, "", "", "", deliveryId.value, 0, 0, 0, message.offset, message.partition);
    var hs := message.headers;
    for i := 0 to |hs|
      invariant forall j :: 0 <= j < i ==> Parses(hs[j])
      invariant row == RowOf(deliveryId.value, message.(headers := hs[..i]))
    {
      var failed;
      failed, row := ReadHeader(row, hs[i]);
      if failed {
        return Err(BadHeader(hs[i]));
      }
      OneMoreHeader(deliveryId.value, message.(headers := hs[..i]), hs[i]);
      assert hs[..i + 1] == hs[..i] + [hs[i]];
    }
    assert hs[..|hs|] == hs;
    r := Ok(row);
  }

  /** Verdict and row do not depend on the order of headers with distinct keys. */
  lemma HeaderOrderIsIrrelevant(id: Uuid, a: ConsumerMessage, b: ConsumerMessage)
    requires DistinctKeys(a.headers) && multiset(a.headers) == multiset(b.headers)
    requires a.value == b.value && a.offset == b.offset && a.partition == b.partition
    ensures AllParse(a.headers) <==> AllParse(b.headers)
    ensures RowOf(id, a) == RowOf(id, b)
  {
    SameMembers(a.headers, b.headers);
    assert forall i :: 0 <= i < |a.headers| ==> a.headers[i] in b.headers;
    assert forall i :: 0 <= i < |b.headers| ==> b.headers[i] in a.headers;
    LastPermutes(a.headers, b.headers, "event", Any);
    LastPermutes(a.headers, b.headers, "target-type", Any);
    LastPermutes(a.headers, b.headers, "sender-login", Any);
    LastPermutes(a.headers, b.headers, "target-id", Any);
    LastPermutes(a.headers, b.headers, "hook-id", Any);
    LastPermutes(a.headers, b.headers, "sender-id", Any);
  }

  // ------------------------------------------------------------- handler

  /** What the handler reads of a request; a missing HTTP header reads as the empty string. */
  datatype Request = Request(
    body: string,
    signature: string,
    event: string,
    delivery: string,
    hookId: string,
    targetId: string,
    targetType: string)

  datatype Sender = Sender(login: string, id: Int64)

  function TrimPrefix(s: string, prefix: string): string {
    if prefix <= s then s[|prefix|..] else s
  }

  function Encode(topic: string, req: Request, sender: Sender): ProducerMessage {
    ProducerMessage(topic, req.delivery, req.body, [
      Header("event", req.event),
      Header("target-type", req.targetType),
      Header("target-id", req.targetId),
      Header("hook-id", req.hookId),
      Header("sender-login", sender.login),
      Header("sender-id", FormatInt(sender.id))
    ])
  }

  /** The one signature that is right, with or without its prefix. */
  lemma SignedMeans(signature: string, mac: string)
    ensures TrimPrefix(signature, "sha256=") == mac <==>
            signature == "sha256=" + mac || (signature == mac && !("sha256=" <= signature))
  {
    if "sha256=" <= signature { assert signature == "sha256=" + signature[|"sha256="|..]; }
    if signature == "sha256=" + mac { assert signature[|"sha256="|..] == mac; }
  }

  /** The handler: every refusal is a 400 without a message, everything else a 202 with one offer. */
  method Handle(mac: (string, string) -> string, decode: string -> Option<Sender>,
                secret: string, topic: string, req: Request)
    returns (status: nat, offered: Option<ProducerMessage>)
    ensures status == 202 || status == 400
    ensures status == 202 <==>
              && req.body != ""
              && (|| req.signature == "sha256=" + mac(secret, req.body)
                  || (req.signature == mac(secret, req.body) && !("sha256=" <= req.signature)))
              && req.event != "" && req.delivery != "" && req.hookId != "" && req.targetId != ""
              && req.targetType != "" && decode(req.body).Some?
              && decode(req.body).value.login != "" && decode(req.body).value.id != 0
    ensures offered.Some? <==> status == 202
    ensures offered.Some? ==>
              && offered.value.topic == topic && offered.value.key == req.delivery && offered.value.value == req.body
              && offered.value.headers == [
                   Header("event", req.event),
                   Header("target-type", req.targetType),
                   Header("target-id", req.targetId),
                   Header("hook-id", req.hookId),
                   Header("sender-login", decode(req.body).value.login),
                   Header("sender-id", FormatInt(decode(req.body).value.id))]
    ensures offered.Some? ==> offered.value == Encode(topic, req, decode(req.body).value)
  {
    status, offered := 400, None;
    SignedMeans(req.signature, mac(secret, req.body));
    if |req.body| == 0 { return; }
    if TrimPrefix(req.signature, "sha256=") != mac(secret, req.body) { return; }
    if |req.event| == 0 { return; }
    if |req.delivery| == 0 { return; }
    if |req.hookId| == 0 { return; }
    if |req.targetId| == 0 { return; }
    if |req.targetType| == 0 { return; }
    var payload := decode(req.body);
    if payload.None? { return; }
    var senderLogin := payload.value.login;
    if senderLogin == "" { return; }
    var senderId := payload.value.id;
    if senderId == 0 { return; }
    offered := Some(ProducerMessage(topic, req.delivery, req.body, [
      Header("event", req.event),
      Header("target-type", req.targetType),
      Header("target-id", req.targetId),
      Header("hook-id", req.hookId),
      Header("sender-login", senderLogin),
      Header("sender-id", FormatInt(senderId))
    ]));
    status := 202;
  }

  // ---------------------------------------------------------- round trip

  lemma EncodedLookups(topic: string, req: Request, sender: Sender)
    ensures var hs := Encode(topic, req, sender).headers;
            && DistinctKeys(hs)
            && Last(hs, "event", Any) == Some(req.event)
            && Last(hs, "target-type", Any) == Some(req.targetType)
            && Last(hs, "target-id", Any) == Some(req.targetId)
            && Last(hs, "hook-id", Any) == Some(req.hookId)
            && Last(hs, "sender-login", Any) == Some(sender.login)
            && Last(hs, "sender-id", Any) == Some(FormatInt(sender.id))
  {
    var hs := Encode(topic, req, sender).headers;
    assert hs[0].key[0] == 'e' && |hs[1].key| == 11 && |hs[2].key| == 9 && |hs[3].key| == 7
        && |hs[4].key| == 12 && hs[5].key[0] == 's' && |hs[5].key| == 9;
    LastOfDistinct(hs, "event", Any, req.event);
    LastOfDistinct(hs, "target-type", Any, req.targetType);
    LastOfDistinct(hs, "target-id", Any, req.targetId);
    LastOfDistinct(hs, "hook-id", Any, req.hookId);
    LastOfDistinct(hs, "sender-login", Any, sender.login);
    LastOfDistinct(hs, "sender-id", Any, FormatInt(sender.id));
  }

  /** What the handler writes parses exactly when target and hook ids are unsigned decimals. */
  lemma EncodedParses(topic: string, req: Request, sender: Sender)
    ensures AllParse(Encode(topic, req, sender).headers) <==>
            ParseUint(req.targetId).Some? && ParseUint(req.hookId).Some?
  {
    var hs := Encode(topic, req, sender).headers;
    IntRoundTrip(sender.id);
    assert hs[2].key == "target-id" && hs[3].key == "hook-id" && hs[5].key == "sender-id";
  }

  /** The whole way of a request: the handler's message, delivered, is stored if and only if the
      delivery id is a UUID and target and hook ids are unsigned 64-bit decimals, and then every
      column is the request's, the sender id over all of its range. */
  method RoundTrip(mac: (string, string) -> string, decode: string -> Option<Sender>,
                   parseUuid: string -> Option<Uuid>,
                   secret: string, topic: string, req: Request, partition: nat, offset: nat)
    returns (stored: Option<Row>)
    ensures stored.Some? <==>
              && req.body != ""
              && (|| req.signature == "sha256=" + mac(secret, req.body)
                  || (req.signature == mac(secret, req.body) && !("sha256=" <= req.signature)))
              && req.event != "" && req.targetType != "" && decode(req.body).Some?
              && decode(req.body).value.login != "" && decode(req.body).value.id != 0
              && req.delivery != "" && parseUuid(req.delivery).Some?
              && ParseUint(req.targetId).Some? && ParseUint(req.hookId).Some?
    ensures stored.Some? ==>
              var row, sender := stored.value, decode(req.body).value;
              && row.payload == req.body && row.event == req.event && row.targetType == req.targetType
              && row.userLogin == sender.login && row.userId == sender.id
              && Some(row.deliveryId) == parseUuid(req.delivery)
              && Some(row.targetId) == ParseUint(req.targetId) && Some(row.hookId) == ParseUint(req.hookId)
              && row.kafkaPartition == partition && row.kafkaOffset == offset
  {
    var status, offered := Handle(mac, decode, secret, topic, req);
    if offered.None? {
      return None;
    }
    var sender := decode(req.body).value;
    EncodedLookups(topic, req, sender);
    EncodedParses(topic, req, sender);
    IntRoundTrip(sender.id);
    var r := PrepareGitHubPayload(parseUuid, Delivered(offered.value, partition, offset));
    stored := if r.Ok? then Some(r.value) else None;
  }
}
