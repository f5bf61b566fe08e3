/** GitLab webhooks end to end: the handler's fallback chains and header encoding, the storage's
    parse loop with its skip rules, and the round trip between them. The UUID parser and the JSON
    decoder are parameters. */
module GitLab {
  import opened Decimal
  import opened Headers
  import opened Wrappers

  /** The all-zero UUID a row starts with. */
  const NIL_UUID: Uuid := 0

  datatype Row = Row(
    payload: string,
    objectKind: string,
    projectPath: Option<string>,
    userUsername: Option<string>,
    eventUuid: Uuid,
    webhookUuid: Uuid,
    projectId: Option<Int64>,
    userId: Option<Int64>,
    kafkaOffset: nat,
    kafkaPartition: nat)

  // ------------------------------------------------------------- storage

  /** Whether the parse loop accepts this header; skipped numbers are not parsed. */
  predicate Parses(parseUuid: string -> Option<Uuid>, h: Header) {
    && (h.key == "webhook-uuid" ==> parseUuid(h.value).Some?)
    && ((h.key == "project-id" || h.key == "user-id") && NonZero(h.value) ==> ParseInt(h.value).Some?)
  }

  function UuidOf(parseUuid: string -> Option<Uuid>, hs: seq<Header>): Uuid {
    match Last(hs, "webhook-uuid", Any)
    case None => NIL_UUID
    case Some(text) => (match parseUuid(text) case None => NIL_UUID case Some(u) => u)
  }

  /** The number in the last header with this key that is not skipped, or NULL. */
  function NumberOf(hs: seq<Header>, key: string): Option<Int64> {
    match Last(hs, key, NonZero)
    case None => None
    case Some(text) => ParseInt(text)
  }

  /** The row a header list stands for when every header parses: per column, the last value that
      is not skipped, or the zero value, or NULL. */
  function RowOf(parseUuid: string -> Option<Uuid>, id: Uuid, m: ConsumerMessage): Row {
    Row(m.value,
        TextOr(Last(m.headers, "object-kind", Any), ""),
        Last(m.headers, "project-path", NonEmpty),
        Last(m.headers, "user-username", NonEmpty),
        id,
        UuidOf(parseUuid, m.headers),
        NumberOf(m.headers, "project-id"),
        NumberOf(m.headers, "user-id"),
        m.offset,
        m.partition)
  }

  ghost predicate AllParse(parseUuid: string -> Option<Uuid>, hs: seq<Header>) {
    forall i :: 0 <= i < |hs| ==> Parses(parseUuid, hs[i])
  }

  ghost predicate FirstBad(parseUuid: string -> Option<Uuid>, hs: seq<Header>, h: Header) {
    exists i :: 0 <= i < |hs| && hs[i] == h && !Parses(parseUuid, h) && AllParse(parseUuid, hs[..i])
  }

  /** What one header that parses changes in the row. */
  function Assigned(parseUuid: string -> Option<Uuid>, row: Row, h: Header): Row
    requires Parses(parseUuid, h)
  {
    if h.key == "webhook-uuid" then row.(webhookUuid := parseUuid(h.value).value)
    else if h.key == "object-kind" then row.(objectKind := h.value)
    else if h.key == "project-id" then
      if NonZero(h.value) then row.(projectId := ParseInt(h.value)) else row
    else if h.key == "project-path" then
      if NonEmpty(h.value) then row.(projectPath := Some(h.value)) else row
    else if h.key == "user-username" then
      if NonEmpty(h.value) then row.(userUsername := Some(h.value)) else row
    else if h.key == "user-id" then
      if NonZero(h.value) then row.(userId := ParseInt(h.value)) else row
    else row
  }

  /** Reading one more header changes the looked-up row as that header says, and no more. */
  lemma OneMoreHeader(parseUuid: string -> Option<Uuid>, id: Uuid, m: ConsumerMessage, h: Header)
    requires Parses(parseUuid, h)
    ensures RowOf(parseUuid, id, m.(headers := m.headers + [h])) == Assigned(parseUuid, RowOf(parseUuid, id, m), h)
  {
    LastAppend(m.headers, h, "webhook-uuid", Any);
    LastAppend(m.headers, h, "object-kind", Any);
    LastAppend(m.headers, h, "project-id", NonZero);
    LastAppend(m.headers, h, "project-path", NonEmpty);
    LastAppend(m.headers, h, "user-username", NonEmpty);
    LastAppend(m.headers, h, "user-id", NonZero);
  }

  /** What the columns of the row are, header by header: the text or number in the last header of
      their key that is not skipped, and empty, NULL or the zero UUID without one. */
  lemma RowMeans(parseUuid: string -> Option<Uuid>, id: Uuid, m: ConsumerMessage)
    ensures var hs, row := m.headers, RowOf(parseUuid, id, m);
            && row.payload == m.value && row.eventUuid == id
            && row.kafkaOffset == m.offset && row.kafkaPartition == m.partition
            && (forall i :: AtLast(hs, i, "object-kind", {}) ==> row.objectKind == hs[i].value)
            && (Absent(hs, "object-kind", {}) ==> row.objectKind == "")
            && (forall i :: AtLast(hs, i, "project-path", {""}) ==> row.projectPath == Some(hs[i].value))
            && (Absent(hs, "project-path", {""}) ==> row.projectPath == None)
            && (forall i :: AtLast(hs, i, "user-username", {""}) ==> row.userUsername == Some(hs[i].value))
            && (Absent(hs, "user-username", {""}) ==> row.userUsername == None)
  {
    LastMeans(m.headers, "object-kind", Any, {});
    LastMeans(m.headers, "project-path", NonEmpty, {""});
    LastMeans(m.headers, "user-username", NonEmpty, {""});
  }

  lemma NumbersMean(parseUuid: string -> Option<Uuid>, id: Uuid, m: ConsumerMessage)
    requires AllParse(parseUuid, m.headers)
    ensures var hs, row := m.headers, RowOf(parseUuid, id, m);
            && (forall i :: AtLast(hs, i, "webhook-uuid", {}) ==> parseUuid(hs[i].value) == Some(row.webhookUuid))
            && (Absent(hs, "webhook-uuid", {}) ==> row.webhookUuid == 0)
            && (forall i :: AtLast(hs, i, "project-id", {"", "0"}) ==>
                  row.projectId.Some? && ParseInt(hs[i].value) == row.projectId)
            && (Absent(hs, "project-id", {"", "0"}) ==> row.projectId == None)
            && (forall i :: AtLast(hs, i, "user-id", {"", "0"}) ==>
                  row.userId.Some? && ParseInt(hs[i].value) == row.userId)
            && (Absent(hs, "user-id", {"", "0"}) ==> row.userId == None)
  {
    LastMeans(m.headers, "webhook-uuid", Any, {});
    LastMeans(m.headers, "project-id", NonZero, {"", "0"});
    LastMeans(m.headers, "user-id", NonZero, {"", "0"});
  }

  /** The cases of the loop's body: what one header makes of the row, or that it does not parse. */
  method ReadHeader(parseUuid: string -> Option<Uuid>, before: Row, h: Header) returns (failed: bool, row: Row)
    ensures failed <==> !Parses(parseUuid, h)
    ensures !failed ==> row == Assigned(parseUuid, before, h)
  {
    var key, value := h.key, h.value;
    failed, row := false, before;
    if key == "webhook-uuid" {
      var parsed := parseUuid(value);
      if parsed.None? { failed := true; } else { row := row.(webhookUuid := parsed.value); }
    } else if key == "object-kind" {
      row := row.(objectKind := value);
    } else if key == "project-id" {
      if !(value == "" || value == "0") {
        var parsed := ParseInt(value);
        if parsed.None? { failed := true; } else { row := row.(projectId := parsed); }
      }
    } else if key == "project-path" {
      if value != "" { row := row.(projectPath := Some(value)); }
    } else if key == "user-username" {
      if value != "" { row := row.(userUsername := Some(value)); }
    } else if key == "user-id" {
      if !(value == "" || value == "0") {
        var parsed := ParseInt(value);
        if parsed.None? { failed := true; } else { row := row.(userId := parsed); }
      }
    }
  }

  /** The storage's loop over the headers, with its early exits and skips. */
  method PrepareGitLabPayload(parseUuid: string -> Option<Uuid>, message: ConsumerMessage)
    returns (r: Result<Row, Error>)
    ensures r.Ok? <==> parseUuid(message.key).Some? && AllParse(parseUuid, message.headers)
    ensures r.Ok? <==>
              && parseUuid(message.key).Some?
              && (forall h :: h in message.headers && h.key == "webhook-uuid" ==> parseUuid(h.value).Some?)
              && (forall h :: h in message.headers && h.key in {"project-id", "user-id"} && h.value !in {"", "0"} ==>
                    ParseInt(h.value).Some?)
    ensures r.Ok? ==> r.value == RowOf(parseUuid, parseUuid(message.key).value, message)
    ensures r == Err(BadKey(message.key)) <==> parseUuid(message.key).None?
    ensures r.Err? && r.error.BadHeader? ==> FirstBad(parseUuid, message.headers, r.error.header)
  {
    var eventUuid := parseUuid(message.key);
    if eventUuid.None? {
      return Err(BadKey(message.key));
    }
    var row := Row(message.value, "", None, None, eventUuid.value, NIL_UUID, None, None,
                   message.offset, message.partition);
    var hs := message.headers;
    for i := 0 to |hs|
      invariant forall j :: 0 <= j < i ==> Parses(parseUuid, hs[j])
      invariant row == RowOf(parseUuid, eventUuid.value, message.(headers := hs[..i]))
    {
      var failed;
      failed, row := ReadHeader(parseUuid, row, hs[i]);
      if failed {
        return Err(BadHeader(hs[i]));
      }
      OneMoreHeader(parseUuid, eventUuid.value, message.(headers := hs[..i]), hs[i]);
      assert hs[..i + 1] == hs[..i] + [hs[i]];
    }
    assert hs[..|hs|] == hs;
    r := Ok(row);
  }

  /** Verdict and row do not depend on the order of headers with distinct keys. */
  lemma HeaderOrderIsIrrelevant(parseUuid: string -> Option<Uuid>, id: Uuid, a: ConsumerMessage, b: ConsumerMessage)
    requires DistinctKeys(a.headers) && multiset(a.headers) == multiset(b.headers)
    requires a.value == b.value && a.offset == b.offset && a.partition == b.partition
    ensures AllParse(parseUuid, a.headers) <==> AllParse(parseUuid, b.headers)
    ensures RowOf(parseUuid, id, a) == RowOf(parseUuid, id, b)
  {
    SameMembers(a.headers, b.headers);
    assert forall i :: 0 <= i < |a.headers| ==> a.headers[i] in b.headers;
    assert forall i :: 0 <= i < |b.headers| ==> b.headers[i] in a.headers;
    LastPermutes(a.headers, b.headers, "webhook-uuid", Any);
    LastPermutes(a.headers, b.headers, "object-kind", Any);
    LastPermutes(a.headers, b.headers, "project-path", NonEmpty);
    LastPermutes(a.headers, b.headers, "user-username", NonEmpty);
    LastPermutes(a.headers, b.headers, "project-id", NonZero);
    LastPermutes(a.headers, b.headers, "user-id", NonZero);
  }

  // ------------------------------------------------------------- handler

  /** What the handler reads of a request; a missing HTTP header reads as the empty string. */
  datatype Request = Request(body: string, token: string, eventUuid: string, webhookUuid: string)

  datatype Project = Project(id: Int64, pathWithNamespace: string)
  datatype User = User(id: Int64, username: string)

  datatype Payload = Payload(
    objectKind: string,
    eventName: string,
    projectId: Int64,
    pathWithNamespace: string,
    fullPath: string,
    groupPath: string,
    userId: Int64,
    userUsername: string,
    project: Project,
    user: User)

  function FirstText(candidates: seq<string>): string {
    if candidates == [] then "" else if candidates[0] != "" then candidates[0] else FirstText(candidates[1..])
  }

  function FirstNumber(candidates: seq<Int64>): Int64 {
    if candidates == [] then 0 else if candidates[0] != 0 then candidates[0] else FirstNumber(candidates[1..])
  }

  function KindOf(p: Payload): string { FirstText([p.objectKind, p.eventName]) }

  function PathOf(p: Payload): string {
    FirstText([p.project.pathWithNamespace, p.pathWithNamespace, p.fullPath, p.groupPath])
  }

  function NameOf(p: Payload): string { FirstText([p.user.username, p.userUsername]) }

  function ProjectIdOf(p: Payload): Int64 { FirstNumber([p.project.id, p.projectId]) }

  function UserIdOf(p: Payload): Int64 { FirstNumber([p.user.id, p.userId]) }

  function Encode(topic: string, req: Request, p: Payload): ProducerMessage {
    ProducerMessage(topic, req.eventUuid, req.body, [
      Header("event-uuid", req.eventUuid),
      Header("webhook-uuid", req.webhookUuid),
      Header("object-kind", KindOf(p)),
      Header("project-id", FormatInt(ProjectIdOf(p))),
      Header("project-path", PathOf(p)),
      Header("user-username", NameOf(p)),
      Header("user-id", FormatInt(UserIdOf(p)))
    ])
  }

  /** The handler: every refusal is a 400 without a message, everything else a 200 with one offer
      whose headers carry the first usable candidate of every fallback chain. */
  method Handle(decode: string -> Option<Payload>, secret: string, topic: string, req: Request)
    returns (status: nat, offered: Option<ProducerMessage>)
    ensures status == 200 || status == 400
    ensures status == 200 <==>
              && req.body != "" && req.token == secret && req.eventUuid != "" && req.webhookUuid != ""
              && decode(req.body).Some?
              && (decode(req.body).value.objectKind != "" || decode(req.body).value.eventName != "")
    ensures offered.Some? <==> status == 200
    ensures offered.Some? ==>
              var p := decode(req.body).value;
              && offered.value.topic == topic && offered.value.key == req.eventUuid && offered.value.value == req.body
              && offered.value.headers == [
                   Header("event-uuid", req.eventUuid),
                   Header("webhook-uuid", req.webhookUuid),
                   Header("object-kind", if p.objectKind != "" then p.objectKind else p.eventName),
                   Header("project-id", FormatInt(if p.project.id != 0 then p.project.id else p.projectId)),
                   Header("project-path",
                          if p.project.pathWithNamespace != "" then p.project.pathWithNamespace
                          else if p.pathWithNamespace != "" then p.pathWithNamespace
                          else if p.fullPath != "" then p.fullPath
                          else p.groupPath),
                   Header("user-username", if p.user.username != "" then p.user.username else p.userUsername),
                   Header("user-id", FormatInt(if p.user.id != 0 then p.user.id else p.userId))]
    ensures offered.Some? ==> offered.value == Encode(topic, req, decode(req.body).value)
  {
    status, offered := 400, None;
    if |req.body| == 0 { return; }
    if req.token != secret { return; }
    if |req.eventUuid| == 0 { return; }
    if |req.webhookUuid| == 0 { return; }
    var decoded := decode(req.body);
    if decoded.None? { return; }
    var payload := decoded.value;
    ChainsMean(payload);

    var objectKind := payload.objectKind;
    if objectKind == "" { objectKind := payload.eventName; }
    if objectKind == "" { return; }

    var projectId := payload.project.id;
    if projectId == 0 { projectId := payload.projectId; }

    var projectPath := payload.project.pathWithNamespace;
    if projectPath == "" { projectPath := payload.pathWithNamespace; }
    if projectPath == "" { projectPath := payload.fullPath; }
    if projectPath == "" { projectPath := payload.groupPath; }

    var userId := payload.user.id;
    if userId == 0 { userId := payload.userId; }

    var userUsername := payload.user.username;
    if userUsername == "" { userUsername := payload.userUsername; }

    offered := Some(ProducerMessage(topic, req.eventUuid, req.body, [
      Header("event-uuid", req.eventUuid),
      Header("webhook-uuid", req.webhookUuid),
      Header("object-kind", objectKind),
      Header("project-id", FormatInt(projectId)),
      Header("project-path", projectPath),
      Header("user-username", userUsername),
      Header("user-id", FormatInt(userId))
    ]));
    status := 200;
  }

  lemma TextCons(a: string, rest: seq<string>)
    ensures FirstText([a] + rest) == if a != "" then a else FirstText(rest)
  {
    assert ([a] + rest)[1..] == rest;
  }

  lemma TwoTexts(a: string, b: string)
    ensures FirstText([a, b]) == if a != "" then a else b
  {
    TextCons(b, []);
    TextCons(a, [b]);
    assert [b] + [] == [b] && [a] + [b] == [a, b];
  }

  lemma FourTexts(a: string, b: string, c: string, d: string)
    ensures FirstText([a, b, c, d]) == if a != "" then a else if b != "" then b else if c != "" then c else d
  {
    TwoTexts(c, d);
    TextCons(b, [c, d]);
    TextCons(a, [b, c, d]);
    assert [b] + [c, d] == [b, c, d] && [a] + [b, c, d] == [a, b, c, d];
  }

  lemma NumberCons(a: Int64, rest: seq<Int64>)
    ensures FirstNumber([a] + rest) == if a != 0 then a else FirstNumber(rest)
  {
    assert ([a] + rest)[1..] == rest;
  }

  lemma TwoNumbers(a: Int64, b: Int64)
    ensures FirstNumber([a, b]) == if a != 0 then a else b
  {
    NumberCons(b, []);
    NumberCons(a, [b]);
    assert [b] + [] == [b] && [a] + [b] == [a, b];
  }

  /** The chains of a payload, candidate by candidate. */
  lemma ChainsMean(p: Payload)
    ensures KindOf(p) == if p.objectKind != "" then p.objectKind else p.eventName
    ensures PathOf(p) == if p.project.pathWithNamespace != "" then p.project.pathWithNamespace
                         else if p.pathWithNamespace != "" then p.pathWithNamespace
                         else if p.fullPath != "" then p.fullPath
                         else p.groupPath
    ensures NameOf(p) == if p.user.username != "" then p.user.username else p.userUsername
    ensures ProjectIdOf(p) == if p.project.id != 0 then p.project.id else p.projectId
    ensures UserIdOf(p) == if p.user.id != 0 then p.user.id else p.userId
  {
    TwoTexts(p.objectKind, p.eventName);
    FourTexts(p.project.pathWithNamespace, p.pathWithNamespace, p.fullPath, p.groupPath);
    TwoTexts(p.user.username, p.userUsername);
    TwoNumbers(p.project.id, p.projectId);
    TwoNumbers(p.user.id, p.userId);
  }

  /** The chain's value is the first non-empty candidate; empty only if all are. */
  lemma {:induction false} TextChain(cs: seq<string>)
    ensures FirstText(cs) == "" <==> forall i :: 0 <= i < |cs| ==> cs[i] == ""
    ensures FirstText(cs) != "" ==>
              exists i :: 0 <= i < |cs| && cs[i] == FirstText(cs) && forall j :: 0 <= j < i ==> cs[j] == ""
  {
    if cs != [] && cs[0] == "" {
      TextChain(cs[1..]);
      if FirstText(cs) != "" {
        var i :| 0 <= i < |cs[1..]| && cs[1..][i] == FirstText(cs[1..]) && forall j :: 0 <= j < i ==> cs[1..][j] == "";
        assert cs[i + 1] == FirstText(cs);
        assert forall j :: 1 <= j < i + 1 ==> cs[j] == cs[1..][j - 1];
      }
    }
  }

  lemma {:induction false} NumberChain(cs: seq<Int64>)
    ensures FirstNumber(cs) == 0 <==> forall i :: 0 <= i < |cs| ==> cs[i] == 0
    ensures FirstNumber(cs) != 0 ==>
              exists i :: 0 <= i < |cs| && cs[i] == FirstNumber(cs) && forall j :: 0 <= j < i ==> cs[j] == 0
  {
    if cs != [] && cs[0] == 0 {
      NumberChain(cs[1..]);
      if FirstNumber(cs) != 0 {
        var i :| 0 <= i < |cs[1..]| && cs[1..][i] == FirstNumber(cs[1..]) && forall j :: 0 <= j < i ==> cs[1..][j] == 0;
        assert cs[i + 1] == FirstNumber(cs);
        assert forall j :: 1 <= j < i + 1 ==> cs[j] == cs[1..][j - 1];
      }
    }
  }

  // ---------------------------------------------------------- round trip

  lemma EncodedKeysDiffer(topic: string, req: Request, p: Payload)
    ensures DistinctKeys(Encode(topic, req, p).headers)
  {
    var hs := Encode(topic, req, p).headers;
    assert |hs[0].key| == 10 && |hs[1].key| == 12 && |hs[2].key| == 11 && hs[2].key[0] == 'o'
        && |hs[3].key| == 10 && hs[3].key[0] == 'p' && hs[0].key[0] == 'e' && |hs[4].key| == 12 && hs[4].key[0] == 'p'
        && hs[1].key[0] == 'w' && |hs[5].key| == 13 && |hs[6].key| == 7;
  }

  /** A column read from one header: NULL exactly when the header's text is skipped. */
  lemma EncodedColumn(hs: seq<Header>, i: nat, keep: string -> bool)
    requires DistinctKeys(hs) && i < |hs|
    ensures Last(hs, hs[i].key, keep) == if keep(hs[i].value) then Some(hs[i].value) else None
  {
    LastOfDistinct(hs, hs[i].key, keep, hs[i].value);
    if Last(hs, hs[i].key, keep).Some? {
      LastOfDistinct(hs, hs[i].key, keep, Last(hs, hs[i].key, keep).value);
    }
  }

  function OrNull(n: Int64): Option<Int64> {
    if n == 0 then None else Some(n)
  }

  function TextOrNull(s: string): Option<string> {
    if s == "" then None else Some(s)
  }

  lemma EncodedNumber(hs: seq<Header>, i: nat, n: Int64)
    requires DistinctKeys(hs) && i < |hs| && hs[i].value == FormatInt(n)
    ensures NumberOf(hs, hs[i].key) == OrNull(n)
  {
    EncodedColumn(hs, i, NonZero);
    SkippedTexts(n);
    IntRoundTrip(n);
  }

  /** What the handler writes parses exactly when the webhook id is a UUID. */
  lemma EncodedParses(parseUuid: string -> Option<Uuid>, topic: string, req: Request, p: Payload)
    ensures AllParse(parseUuid, Encode(topic, req, p).headers) <==> parseUuid(req.webhookUuid).Some?
  {
    var hs := Encode(topic, req, p).headers;
    IntRoundTrip(ProjectIdOf(p));
    IntRoundTrip(UserIdOf(p));
    EncodedKeysDiffer(topic, req, p);
    assert hs[1].key == "webhook-uuid" && hs[3].key == "project-id" && hs[6].key == "user-id";
  }

  lemma EncodedRow(parseUuid: string -> Option<Uuid>, id: Uuid, topic: string, req: Request, p: Payload,
                   partition: nat, offset: nat)
    requires parseUuid(req.webhookUuid).Some?
    ensures RowOf(parseUuid, id, Delivered(Encode(topic, req, p), partition, offset))
         == Row(req.body, KindOf(p), TextOrNull(PathOf(p)), TextOrNull(NameOf(p)), id,
                parseUuid(req.webhookUuid).value, OrNull(ProjectIdOf(p)), OrNull(UserIdOf(p)), offset, partition)
  {
    var hs := Encode(topic, req, p).headers;
    EncodedKeysDiffer(topic, req, p);
    EncodedColumn(hs, 1, Any);
    EncodedColumn(hs, 2, Any);
    EncodedNumber(hs, 3, ProjectIdOf(p));
    EncodedColumn(hs, 4, NonEmpty);
    EncodedColumn(hs, 5, NonEmpty);
    EncodedNumber(hs, 6, UserIdOf(p));
  }

  /** The whole way of a request: the handler's message, delivered, is stored if and only if both
      ids are UUIDs, and then the row holds the first usable candidate of every chain, with NULL
      for empty texts and zero ids and every other 64-bit number exactly. */
  method RoundTrip(decode: string -> Option<Payload>, parseUuid: string -> Option<Uuid>,
                   secret: string, topic: string, req: Request, partition: nat, offset: nat)
    returns (stored: Option<Row>)
    ensures stored.Some? <==>
              && req.body != "" && req.token == secret && req.eventUuid != "" && req.webhookUuid != ""
              && decode(req.body).Some?
              && (decode(req.body).value.objectKind != "" || decode(req.body).value.eventName != "")
              && parseUuid(req.eventUuid).Some? && parseUuid(req.webhookUuid).Some?
    ensures stored.Some? ==>
              var row, p := stored.value, decode(req.body).value;
              && row.payload == req.body
              && row.objectKind == (if p.objectKind != "" then p.objectKind else p.eventName)
              && row.projectPath == (
                   if p.project.pathWithNamespace != "" then Some(p.project.pathWithNamespace)
                   else if p.pathWithNamespace != "" then Some(p.pathWithNamespace)
                   else if p.fullPath != "" then Some(p.fullPath)
                   else if p.groupPath != "" then Some(p.groupPath)
                   else None)
              && row.userUsername == (
                   if p.user.username != "" then Some(p.user.username)
                   else if p.userUsername != "" then Some(p.userUsername)
                   else None)
              && row.projectId == (
                   if p.project.id != 0 then Some(p.project.id) else if p.projectId != 0 then Some(p.projectId) else None)
              && row.userId == (
                   if p.user.id != 0 then Some(p.user.id) else if p.userId != 0 then Some(p.userId) else None)
              && Some(row.eventUuid) == parseUuid(req.eventUuid) && Some(row.webhookUuid) == parseUuid(req.webhookUuid)
              && row.kafkaPartition == partition && row.kafkaOffset == offset
  {
    var status, offered := Handle(decode, secret, topic, req);
    if offered.None? {
      return None;
    }
    var p := decode(req.body).value;
    ChainsMean(p);
    EncodedParses(parseUuid, topic, req, p);
    if parseUuid(req.eventUuid).Some? && parseUuid(req.webhookUuid).Some? {
      EncodedRow(parseUuid, parseUuid(req.eventUuid).value, topic, req, p, partition, offset);
    }
    var r := PrepareGitLabPayload(parseUuid, Delivered(offered.value, partition, offset));
    stored := if r.Ok? then Some(r.value) else None;
  }
}
