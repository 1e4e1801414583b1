/**
 * The `send-push-notification` edge function: it unwraps the webhook payload, looks up the
 * shop's active Expo push tokens, builds one message per token, sends them, and marks
 * inactive every token whose ticket reports `DeviceNotRegistered`. The `push_tokens` table
 * is a field of a class; parsing the request, the token query's error and the Expo reply are
 * inputs.
 */
module Push {
  import opened Wrappers

  /** The notification fields the function reads; an absent `shop_id` is `None`. */
  datatype NotificationPayload = NotificationPayload(
    id: string, shopId: Option<string>, kind: string, title: string, body: string,
    data: Option<map<string, string>>)

  /** A request body: a webhook wraps the row in `record`; a direct call sends the row itself. */
  datatype Payload = Payload(record: Option<NotificationPayload>, fields: NotificationPayload)

  /** `payload.record || payload`. */
  function Unwrap(p: Payload): (n: NotificationPayload)
    ensures p.record.Some? ==> n == p.record.value
    ensures p.record.None? ==> n == p.fields
  {
    p.record.GetOr(p.fields)
  }

  /** `!notification.shop_id`: absent or empty. */
  predicate MissingShop(n: NotificationPayload) {
    n.shopId.None? || n.shopId.value == ""
  }

  /** A `push_tokens` row. */
  datatype PushToken = PushToken(token: string, shopId: string, isActive: bool)

  /** A row the token query returns: the shop's, and active. */
  predicate Fetched(row: PushToken, shopId: string) {
    row.shopId == shopId && row.isActive
  }

  /** The positions of the shop's active rows, ascending: the reference for `ActiveTokens`. */
  function ActivePositions(rows: seq<PushToken>, shopId: string): (r: seq<nat>)
    ensures forall i :: 0 <= i < |r| ==> r[i] < |rows|
    ensures forall k :: k in r <==> 0 <= k < |rows| && Fetched(rows[k], shopId)
    ensures forall i, j :: 0 <= i < j < |r| ==> r[i] < r[j]
  {
    if rows == [] then []
    else
      var m := |rows| - 1;
      ActivePositions(rows[..m], shopId) + (if Fetched(rows[m], shopId) then [m] else [])
  }

  /**
   * `select('expo_push_token').eq('shop_id', shopId).eq('is_active', true)`: one token per
   * matching row, in table order, so a token stored twice is sent to twice and counted twice
   * in `sent_to`.
   */
  function ActiveTokens(rows: seq<PushToken>, shopId: string): (r: seq<string>)
    ensures |r| == |ActivePositions(rows, shopId)|
    ensures forall j :: 0 <= j < |r| ==> r[j] == rows[ActivePositions(rows, shopId)[j]].token
  {
    if rows == [] then []
    else
      var m := |rows| - 1;
      ActiveTokens(rows[..m], shopId) + (if Fetched(rows[m], shopId) then [rows[m].token] else [])
  }

  /** A token is fetched exactly when some active row of the shop holds it. */
  lemma ActiveTokensIff(rows: seq<PushToken>, shopId: string, t: string)
    ensures t in ActiveTokens(rows, shopId) <==>
      exists k :: 0 <= k < |rows| && rows[k].token == t && rows[k].shopId == shopId && rows[k].isActive
  {
    var r, ps := ActiveTokens(rows, shopId), ActivePositions(rows, shopId);
    if exists k :: 0 <= k < |rows| && rows[k].token == t && rows[k].shopId == shopId && rows[k].isActive {
      var k :| 0 <= k < |rows| && rows[k].token == t && rows[k].shopId == shopId && rows[k].isActive;
      assert k in ps;
      var j :| 0 <= j < |ps| && ps[j] == k;
      assert r[j] == t;
    }
    if t in r {
      var j :| 0 <= j < |r| && r[j] == t;
      assert ps[j] in ps;
    }
  }

  /** One Expo message. */
  datatype Message = Message(
    to: string, sound: string, title: string, body: string, data: map<string, string>,
    channelId: string, priority: string)

  /**
   * `{ ...notification.data, notification_id, type }`: the notification's own data, with the
   * two keys the function adds written last, so they override.
   */
  function MessageData(n: NotificationPayload): (d: map<string, string>)
    ensures d.Keys == n.data.GetOr(map[]).Keys + {"notification_id", "type"}
    ensures d["notification_id"] == n.id && d["type"] == n.kind
    ensures forall k :: k in n.data.GetOr(map[]) && k != "notification_id" && k != "type" ==> d[k] == n.data.value[k]
  {
    n.data.GetOr(map[])["notification_id" := n.id]["type" := n.kind]
  }

  function MessageFor(n: NotificationPayload, token: string): Message {
    Message(token, "default", n.title, n.body, MessageData(n), "orders", "high")
  }

  /** `tokens.map(...)`: one message per token, in token order. */
  function Messages(n: NotificationPayload, tokens: seq<string>): (ms: seq<Message>)
    ensures |ms| == |tokens|
    ensures forall i :: 0 <= i < |tokens| ==>
      && ms[i].to == tokens[i] && ms[i].title == n.title && ms[i].body == n.body
      && ms[i].data == MessageData(n) && ms[i].sound == "default"
      && ms[i].channelId == "orders" && ms[i].priority == "high"
  {
    if tokens == [] then [] else [MessageFor(n, tokens[0])] + Messages(n, tokens[1..])
  }

  /** An Expo push ticket; `detailsError` is `ticket.details?.error`. */
  datatype Ticket = Ticket(status: string, message: string, detailsError: Option<string>)

  /** What `response.json()` yields: `data` is the ticket list, when present. */
  datatype ExpoReply = ExpoReply(data: Option<seq<Ticket>>)

  predicate Unregistered(t: Ticket) {
    t.status == "error" && t.detailsError == Some("DeviceNotRegistered")
  }

  /**
   * The token the function deactivates for ticket `i`: the `to` of the message at the same
   * index, when there is such a message and its token is non-empty.
   */
  predicate RejectedAt(ms: seq<Message>, tickets: seq<Ticket>, i: int) {
    0 <= i < |tickets| && Unregistered(tickets[i]) && i < |ms| && ms[i].to != ""
  }

  /** Some ticket among the first `n` rejects `token`. */
  predicate RejectedAmong(ms: seq<Message>, tickets: seq<Ticket>, n: int, token: string) {
    exists i :: 0 <= i < n && RejectedAt(ms, tickets, i) && ms[i].to == token
  }

  /** `update({ is_active: false }).eq('expo_push_token', token)`: every row holding the token. */
  function Deactivate(rows: seq<PushToken>, token: string): (r: seq<PushToken>)
    ensures |r| == |rows|
    ensures forall k :: 0 <= k < |rows| ==> r[k] == if rows[k].token == token then rows[k].(isActive := false) else rows[k]
  {
    if rows == [] then [] else
      [if rows[0].token == token then rows[0].(isActive := false) else rows[0]] + Deactivate(rows[1..], token)
  }

  /** The JSON bodies the function answers with. */
  datatype Body =
    | ErrorBody(error: string)
    | MessageBody(message: string)
    | SentBody(success: bool, sentTo: nat, tickets: Option<seq<Ticket>>)

  datatype Response = Response(status: int, body: Body)

  class PushService {
    var pushTokens: seq<PushToken>

    constructor (rows: seq<PushToken>)
      ensures pushTokens == rows
    {
      pushTokens := rows;
    }

    /**
     * The loop over the tickets: each `DeviceNotRegistered` error deactivates the token of the
     * message at its index. A row ends inactive exactly when it was inactive or its token was
     * rejected; nothing else about any row changes.
     */
    method DeactivateRejected(ms: seq<Message>, tickets: seq<Ticket>)
      modifies this
      ensures |pushTokens| == |old(pushTokens)|
      ensures forall k :: 0 <= k < |pushTokens| ==>
        pushTokens[k] == old(pushTokens)[k].(isActive := old(pushTokens)[k].isActive && !RejectedAmong(ms, tickets, |tickets|, old(pushTokens)[k].token))
    {
      var i := 0;
      while i < |tickets|
        invariant 0 <= i <= |tickets|
        invariant |pushTokens| == |old(pushTokens)|
        invariant forall k :: 0 <= k < |pushTokens| ==>
          pushTokens[k] == old(pushTokens)[k].(isActive := old(pushTokens)[k].isActive && !RejectedAmong(ms, tickets, i, old(pushTokens)[k].token))
      {
        var ticket := tickets[i];
        if ticket.status == "error" && ticket.detailsError == Some("DeviceNotRegistered") && i < |ms| && ms[i].to != "" {
          pushTokens := Deactivate(pushTokens, ms[i].to);
        }
        i := i + 1;
      }
    }

    /**
     * The request handler. `payload` is `req.json()`, `fetchError` the token query's error and
     * `reply` the Expo call's parsed answer, or the message of what it threw.
     */
    method Handle(payload: Result<Payload, string>, fetchError: Option<string>, reply: Result<ExpoReply, string>)
      returns (resp: Response)
      modifies this
      ensures payload.Failure? ==> resp == Response(500, ErrorBody(payload.error)) && pushTokens == old(pushTokens)
      ensures payload.Success? && MissingShop(Unwrap(payload.value)) ==>
        resp == Response(400, ErrorBody("Missing shop_id")) && pushTokens == old(pushTokens)
      ensures payload.Success? && !MissingShop(Unwrap(payload.value)) && fetchError.Some? ==>
        resp == Response(500, ErrorBody("Failed to fetch push tokens")) && pushTokens == old(pushTokens)
      ensures payload.Success? && !MissingShop(Unwrap(payload.value)) && fetchError.None? ==>
        var n := Unwrap(payload.value);
        var tokens := ActiveTokens(old(pushTokens), n.shopId.value);
        && (tokens == [] ==> resp == Response(200, MessageBody("No push tokens found")) && pushTokens == old(pushTokens))
        && (tokens != [] && reply.Failure? ==> resp == Response(500, ErrorBody(reply.error)) && pushTokens == old(pushTokens))
        && (tokens != [] && reply.Success? ==>
              && resp == Response(200, SentBody(true, |tokens|, reply.value.data))
              && |pushTokens| == |old(pushTokens)|
              && forall k :: 0 <= k < |pushTokens| ==>
                   pushTokens[k] == old(pushTokens)[k].(isActive := old(pushTokens)[k].isActive
                     && !RejectedAmong(Messages(n, tokens), reply.value.data.GetOr([]), |reply.value.data.GetOr([])|, old(pushTokens)[k].token)))
    {
      if payload.Failure? {
        return Response(500, ErrorBody(payload.error));
      }
      var n := Unwrap(payload.value);
      if n.shopId.None? || n.shopId.value == "" {
        return Response(400, ErrorBody("Missing shop_id"));
      }
      if fetchError.Some? {
        return Response(500, ErrorBody("Failed to fetch push tokens"));
      }
      var tokens := ActiveTokens(pushTokens, n.shopId.value);
      if tokens == [] {
        return Response(200, MessageBody("No push tokens found"));
      }
      var ms := Messages(n, tokens);
      if reply.Failure? {
        return Response(500, ErrorBody(reply.error));
      }
      if reply.value.data.Some? {
        DeactivateRejected(ms, reply.value.data.value);
      } else {
        assert forall k :: 0 <= k < |pushTokens| ==> !RejectedAmong(ms, [], 0, pushTokens[k].token);
      }
      resp := Response(200, SentBody(true, |tokens|, reply.value.data));
    }
  }

  // ---------------------------------------------------------------------------------------
  // Properties
  // ---------------------------------------------------------------------------------------

  /** A token is rejected exactly when some ticket at a message's index reports it unregistered. */
  lemma RejectedIff(n: NotificationPayload, tokens: seq<string>, tickets: seq<Ticket>, token: string)
    ensures RejectedAmong(Messages(n, tokens), tickets, |tickets|, token) <==>
      token != "" && exists i :: 0 <= i < |tickets| && i < |tokens| && Unregistered(tickets[i]) && tokens[i] == token
  {
    var ms := Messages(n, tokens);
    if token != "" && exists i :: 0 <= i < |tickets| && i < |tokens| && Unregistered(tickets[i]) && tokens[i] == token {
      var i :| 0 <= i < |tickets| && i < |tokens| && Unregistered(tickets[i]) && tokens[i] == token;
      assert RejectedAt(ms, tickets, i) && ms[i].to == token;
    }
  }

  /** Without tickets, or when every ticket is ok, no row changes. */
  lemma NoErrorNoChange(ms: seq<Message>, tickets: seq<Ticket>, token: string)
    requires forall i :: 0 <= i < |tickets| ==> tickets[i].status != "error"
    ensures !RejectedAmong(ms, tickets, |tickets|, token)
  {
  }
}
