/**
 * Webhook fan-out on task saves (backend/apps/projects/signals.py).
 *
 * `TaskUpdated` is the `post_save` receiver: it picks the event kind, selects
 * the organization's active webhooks, builds one payload and, for every
 * selected webhook whose `events` list holds the kind, issues one signed POST.
 * Starting a thread per POST is modelled as appending the request to the
 * outbox the method returns; the HTTP exchange itself is not modelled.
 *
 * `json.dumps`, `str.encode`, HMAC-SHA256 and `str(datetime)` are library
 * calls: they are the fields of `Library`, deterministic functions the model
 * does not unfold. The hex encoding of the digest is modelled and inverted.
 */
module Signals {
  import opened Wrappers
  import opened Organizations
  import opened Projects
  import opened Store

  newtype byte = x: int | 0 <= x < 256

  // ---- event kind and payload ----

  /** `'task.created' if created else 'task.updated'`. */
  function EventKind(created: bool): (e: string)
    ensures e == "task.created" <==> created
    ensures e == "task.updated" <==> !created
  {
    if created then "task.created" else "task.updated"
  }

  datatype ProjectRef = ProjectRef(id: ProjectId, name: string)
  /** The `task` object of the payload; `assignee` is the assignee's email or null. */
  datatype TaskBody = TaskBody(id: TaskId, title: string, status: string, priority: string,
                               project: ProjectRef, assignee: Option<string>)
  datatype Payload = Payload(event: string, timestamp: string, task: TaskBody)

  /** The library functions the receiver calls. */
  datatype Library = Library(
    dumps: Payload -> string,                         // json.dumps
    encode: string -> seq<byte>,                      // str.encode(), UTF-8
    hmacSha256: (seq<byte>, seq<byte>) -> seq<byte>,  // hmac.new(key, msg, hashlib.sha256).digest(), RFC 2104 section 2
    timestampText: Timestamp -> string)               // str(datetime)

  /** The payload for saved task `id`: its fields, its project's id and name, and its assignee's email. */
  function BuildPayload(lib: Library, db: Db, id: TaskId, event: string): (p: Payload)
    requires db.Valid() && id in db.tasks
    ensures p.event == event && p.timestamp == lib.timestampText(db.tasks[id].updatedAt)
    ensures p.task.id == id && p.task.title == db.tasks[id].title
    ensures p.task.status == TaskStatusName(db.tasks[id].status) && p.task.priority == PriorityName(db.tasks[id].priority)
    ensures db.tasks[id].project in db.projects
    ensures p.task.project == ProjectRef(db.tasks[id].project, db.projects[db.tasks[id].project].name)
    ensures p.task.assignee.None? <==> db.tasks[id].assignee.None?
    ensures p.task.assignee.Some? ==> p.task.assignee.value == db.userEmails[db.tasks[id].assignee.value]
  {
    var task := db.tasks[id];
    var project := db.projects[task.project];
    Payload(event, lib.timestampText(task.updatedAt),
            TaskBody(id, task.title, TaskStatusName(task.status), PriorityName(task.priority),
                     ProjectRef(task.project, project.name),
                     if task.assignee.Some? then Some(db.userEmails[task.assignee.value]) else None))
  }

  // ---- hexdigest ----

  /** The lower-case hex digit for a nibble. */
  function HexDigit(n: nat): (c: char)
    requires n < 16
    ensures IsHexDigit(c)
  {
    if n < 10 then ('0' as int + n) as char else ('a' as int + n - 10) as char
  }

  predicate IsHexDigit(c: char)
  {
    '0' <= c <= '9' || 'a' <= c <= 'f'
  }

  /** `.hexdigest()`: two lower-case hex digits per byte, high nibble first. */
  function HexDigest(d: seq<byte>): (h: string)
    ensures |h| == 2 * |d|
    ensures forall i :: 0 <= i < |h| ==> IsHexDigit(h[i])
  {
    if d == [] then ""
    else [HexDigit(d[0] as int / 16), HexDigit(d[0] as int % 16)] + HexDigest(d[1..])
  }

  /** The value of one lower-case hex digit. */
  function HexValue(c: char): (v: Option<nat>)
    ensures v.Some? <==> IsHexDigit(c)
    ensures v.Some? ==> v.value < 16 && HexDigit(v.value) == c
  {
    if '0' <= c <= '9' then Some(c as nat - '0' as nat)
    else if 'a' <= c <= 'f' then Some(c as nat - 'a' as nat + 10)
    else None
  }

  /** Reading a digit back gives the nibble it was written for. */
  lemma HexValueOfDigit(n: nat)
    requires n < 16
    ensures HexValue(HexDigit(n)) == Some(n)
  {
  }

  /** Reads a lower-case hex string back into bytes; None if it is not one. */
  function ParseHex(h: string): Option<seq<byte>>
    decreases |h|
  {
    if h == [] then Some([])
    else if |h| == 1 then None
    else match (HexValue(h[0]), HexValue(h[1]), ParseHex(h[2..]))
      case (Some(hi), Some(lo), Some(rest)) => Some([(hi * 16 + lo) as byte] + rest)
      case _ => None
  }

  /** Hex decoding inverts the digest's hex encoding. */
  lemma {:induction false} HexRoundTrip(d: seq<byte>)
    ensures ParseHex(HexDigest(d)) == Some(d)
  {
    if d != [] {
      var h := HexDigest(d);
      var b := d[0] as int;
      assert h[2..] == HexDigest(d[1..]);
      HexRoundTrip(d[1..]);
      HexValueOfDigit(b / 16);
      HexValueOfDigit(b % 16);
      assert h[0] == HexDigit(b / 16) && h[1] == HexDigit(b % 16);
      assert ParseHex(h) == Some([((b / 16) * 16 + b % 16) as byte] + d[1..]);
      assert [d[0]] + d[1..] == d;
    }
  }

  /** Two digests with the same hex text are the same digest. */
  lemma HexDigestInjective(d1: seq<byte>, d2: seq<byte>)
    ensures HexDigest(d1) == HexDigest(d2) <==> d1 == d2
  {
    HexRoundTrip(d1);
    HexRoundTrip(d2);
  }

  // ---- send_webhook ----

  const SignaturePrefix: string := "sha256="
  const SignatureHeader: string := "X-Hub-Signature-256"

  /** `'sha256=' + hmac.new(secret.encode(), body.encode(), sha256).hexdigest()`. */
  function Signature(lib: Library, secret: string, body: string): string
  {
    SignaturePrefix + HexDigest(lib.hmacSha256(lib.encode(secret), lib.encode(body)))
  }

  /** What a receiver does with the header: strip the prefix and decode the hex digest. */
  function ParseSignature(header: string): Option<seq<byte>>
  {
    if |header| >= |SignaturePrefix| && header[..|SignaturePrefix|] == SignaturePrefix
    then ParseHex(header[|SignaturePrefix|..])
    else None
  }

  /** One HTTP POST: target URL, headers in the order they are built, and the exact body string. */
  datatype Request = Request(url: string, headers: seq<(string, string)>, body: string)

  /** The value of the first header called `name`. */
  function HeaderValue(headers: seq<(string, string)>, name: string): (v: Option<string>)
    ensures v.Some? ==> (name, v.value) in headers
    ensures v.None? ==> forall k :: 0 <= k < |headers| ==> headers[k].0 != name
  {
    if headers == [] then None
    else if headers[0].0 == name then Some(headers[0].1)
    else HeaderValue(headers[1..], name)
  }

  /** `send_webhook(url, secret, payload)`: the request it posts, with the payload serialized once. */
  function SendWebhook(lib: Library, url: string, secret: string, payload: Payload): (req: Request)
    ensures req.url == url && req.body == lib.dumps(payload)
    ensures HeaderValue(req.headers, "Content-Type") == Some("application/json")
    ensures HeaderValue(req.headers, SignatureHeader) == Some(Signature(lib, secret, req.body))
    ensures HeaderValue(req.headers, "User-Agent") == Some("OrgaFlow-Webhook/1.0")
  {
    var body := lib.dumps(payload);
    var headers := [("Content-Type", "application/json"),
                    (SignatureHeader, Signature(lib, secret, body)),
                    ("User-Agent", "OrgaFlow-Webhook/1.0")];
    assert HeaderValue(headers[2..], "User-Agent") == Some("OrgaFlow-Webhook/1.0");
    assert HeaderValue(headers[1..], "User-Agent") == HeaderValue(headers[2..], "User-Agent");
    Request(url, headers, body)
  }

  /**
   * A receiver that knows the secret recovers from the signature header exactly
   * the HMAC-SHA256 of the body it was sent.
   */
  lemma SignatureVerifies(lib: Library, url: string, secret: string, payload: Payload)
    ensures var req := SendWebhook(lib, url, secret, payload);
      ParseSignature(Signature(lib, secret, req.body)) == Some(lib.hmacSha256(lib.encode(secret), lib.encode(req.body)))
  {
    var body := lib.dumps(payload);
    var digest := lib.hmacSha256(lib.encode(secret), lib.encode(body));
    var header := Signature(lib, secret, body);
    assert header[|SignaturePrefix|..] == HexDigest(digest);
    HexRoundTrip(digest);
  }

  /** Two signature headers are equal exactly when the underlying HMAC digests are. */
  lemma SignatureDeterminedByDigest(lib: Library, secret1: string, body1: string, secret2: string, body2: string)
    ensures Signature(lib, secret1, body1) == Signature(lib, secret2, body2) <==>
      lib.hmacSha256(lib.encode(secret1), lib.encode(body1)) == lib.hmacSha256(lib.encode(secret2), lib.encode(body2))
  {
    var d1 := lib.hmacSha256(lib.encode(secret1), lib.encode(body1));
    var d2 := lib.hmacSha256(lib.encode(secret2), lib.encode(body2));
    HexDigestInjective(d1, d2);
    if Signature(lib, secret1, body1) == Signature(lib, secret2, body2) {
      assert Signature(lib, secret1, body1)[|SignaturePrefix|..] == HexDigest(d1);
      assert Signature(lib, secret2, body2)[|SignaturePrefix|..] == HexDigest(d2);
    }
  }

  // ---- subscriber selection ----

  /** `Webhook.objects.filter(organization=o, is_active=True)`, in table order. */
  function ActiveWebhooks(table: seq<Webhook>, o: OrgId): (c: seq<Webhook>)
    ensures forall w :: w in c ==> w.isActive && w.organization == o
    ensures forall w :: multiset(c)[w] == if w.isActive && w.organization == o then multiset(table)[w] else 0
    decreases |table|
  {
    if table == [] then []
    else
      var last := table[|table| - 1];
      assert table == table[..|table| - 1] + [last];
      ActiveWebhooks(table[..|table| - 1], o) + (if last.isActive && last.organization == o then [last] else [])
  }

  /** The webhooks, in order, whose `events` list holds `event` as an element. */
  function Subscribed(webhooks: seq<Webhook>, event: string): (s: seq<Webhook>)
    ensures forall w :: w in s ==> event in w.events
    ensures forall w :: multiset(s)[w] == if event in w.events then multiset(webhooks)[w] else 0
    decreases |webhooks|
  {
    if webhooks == [] then []
    else
      var last := webhooks[|webhooks| - 1];
      assert webhooks == webhooks[..|webhooks| - 1] + [last];
      Subscribed(webhooks[..|webhooks| - 1], event) + (if event in last.events then [last] else [])
  }

  /** Selecting from one more webhook appends it when it is subscribed. */
  lemma SubscribedStep(webhooks: seq<Webhook>, i: nat, event: string)
    requires i < |webhooks|
    ensures Subscribed(webhooks[..i + 1], event)
         == Subscribed(webhooks[..i], event) + (if event in webhooks[i].events then [webhooks[i]] else [])
  {
    assert webhooks[..i + 1][..i] == webhooks[..i];
  }

  /**
   * The webhooks that receive a delivery are exactly the active webhooks of the
   * organization whose `events` list holds the event kind, each as often as it
   * occurs in the table; an inactive or unsubscribed webhook receives nothing.
   */
  lemma SelectionIsExact(table: seq<Webhook>, o: OrgId, event: string, w: Webhook)
    ensures multiset(Subscribed(ActiveWebhooks(table, o), event))[w]
         == if w.isActive && w.organization == o && event in w.events then multiset(table)[w] else 0
    ensures w in Subscribed(ActiveWebhooks(table, o), event) <==>
      w in table && w.isActive && w.organization == o && event in w.events
  {
    var s := Subscribed(ActiveWebhooks(table, o), event);
    assert w in s <==> multiset(s)[w] > 0;
    assert w in table <==> multiset(table)[w] > 0;
  }

  /** A webhook created with the defaults is active and subscribed to no event. */
  lemma DefaultWebhookMatchesNothing(o: OrgId, url: string, secret: string, event: string)
    requires NewWebhook(o, url, secret, None, None).Ok?
    ensures NewWebhook(o, url, secret, None, None).value.isActive
    ensures Subscribed([NewWebhook(o, url, secret, None, None).value], event) == []
  {
    var w := NewWebhook(o, url, secret, None, None).value;
    assert [w][..0] == [];
  }

  // ---- task_updated ----

  /** One signed request per recipient, in recipient order, all carrying `payload`. */
  function Deliveries(lib: Library, recipients: seq<Webhook>, payload: Payload): (out: seq<Request>)
    ensures |out| == |recipients|
  {
    seq(|recipients|, k requires 0 <= k < |recipients| => SendWebhook(lib, recipients[k].url, recipients[k].secret, payload))
  }

  /**
   * All deliveries of one save carry the same body, each recipient's signature
   * is over that body with its own secret, and no recipients means no deliveries.
   */
  lemma DeliveriesShareOneBody(lib: Library, recipients: seq<Webhook>, payload: Payload)
    ensures recipients == [] ==> Deliveries(lib, recipients, payload) == []
    ensures forall k :: 0 <= k < |recipients| ==>
      && Deliveries(lib, recipients, payload)[k].url == recipients[k].url
      && Deliveries(lib, recipients, payload)[k].body == lib.dumps(payload)
      && HeaderValue(Deliveries(lib, recipients, payload)[k].headers, SignatureHeader)
           == Some(Signature(lib, recipients[k].secret, lib.dumps(payload)))
  {
  }

  lemma DeliveriesAppend(lib: Library, recipients: seq<Webhook>, w: Webhook, payload: Payload)
    ensures Deliveries(lib, recipients + [w], payload)
         == Deliveries(lib, recipients, payload) + [SendWebhook(lib, w.url, w.secret, payload)]
  {
  }

  /**
   * The `post_save` receiver for a save of task `id`: the outbox holds one signed
   * request per selected webhook, in selection order, all with the same body.
   */
  method TaskUpdated(lib: Library, db: Db, id: TaskId, created: bool) returns (outbox: seq<Request>)
    requires db.Valid() && id in db.tasks
    ensures outbox == Deliveries(lib, Subscribed(ActiveWebhooks(db.webhooks, TaskOrganization(db, id)), EventKind(created)),
                                 BuildPayload(lib, db, id, EventKind(created)))
  {
    var event := EventKind(created);
    var webhooks := ActiveWebhooks(db.webhooks, TaskOrganization(db, id));
    if webhooks == [] {
      return [];
    }
    var payload := BuildPayload(lib, db, id, event);
    outbox := Dispatch(lib, webhooks, event, payload);
  }

  /** The loop over the organization's active webhooks: one request per subscriber, in table order. */
  method Dispatch(lib: Library, webhooks: seq<Webhook>, event: string, payload: Payload) returns (outbox: seq<Request>)
    ensures outbox == Deliveries(lib, Subscribed(webhooks, event), payload)
  {
    outbox := [];
    for i := 0 to |webhooks|
      invariant outbox == Deliveries(lib, Subscribed(webhooks[..i], event), payload)
    {
      var webhook := webhooks[i];
      SubscribedStep(webhooks, i, event);
      if event in webhook.events {
        DeliveriesAppend(lib, Subscribed(webhooks[..i], event), webhook, payload);
        outbox := outbox + [SendWebhook(lib, webhook.url, webhook.secret, payload)];
      } else {
        assert Subscribed(webhooks[..i + 1], event) == Subscribed(webhooks[..i], event);
      }
    }
    assert webhooks[..|webhooks|] == webhooks;
  }
}
