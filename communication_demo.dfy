/**
 * The communication demo panel: a bounded log of the most recent events,
 * the token shown from the token bridge, and the buttons that broadcast a
 * message or push selections to the shared store.
 *
 * Incoming bus and bridge events are method calls; what the panel sends
 * out (bus emits, bridge and store calls, toasts) is appended to `effects`.
 * The clock is the parameter `now`.
 */
module CommunicationDemoComponent {
  import opened Options
  import opened Strings

  /** The log keeps the newest ten events. */
  const MaxEvents := 10

  /** The name this panel gives as the source of what it emits. */
  const Source := "remote-distributed"

  /** The kinds of event that end up in the log. */
  datatype EventKind = UserSelected | ProductSelected | Notification | TokenUpdated

  /** One log line: an id made from the clock, the event kind, the optional payload source, the time. */
  datatype EventLogItem = EventLogItem(id: string, kind: EventKind, source: Option<string>, timestamp: nat)

  function Min(a: int, b: int): int {
    if a <= b then a else b
  }

  /** `addLog`'s state update: the new item first, then at most nine of the previous items. */
  function AddLog(prev: seq<EventLogItem>, item: EventLogItem): (r: seq<EventLogItem>)
    ensures |r| == Min(|prev| + 1, MaxEvents)
    ensures r[0] == item
    ensures r[1..] == prev[..|r| - 1]
  {
    [item] + prev[..Min(9, |prev|)]
  }

  /** The log after adding `items` one by one, oldest first, to the initial empty log. */
  function Replay(items: seq<EventLogItem>): seq<EventLogItem> {
    if items == [] then []
    else AddLog(Replay(items[..|items| - 1]), items[|items| - 1])
  }

  function Reverse<T>(s: seq<T>): (r: seq<T>)
    ensures |r| == |s|
  {
    if s == [] then [] else [s[|s| - 1]] + Reverse(s[..|s| - 1])
  }

  /** Whatever is added, the log never holds more than ten entries. */
  lemma {:induction false} ReplayBounded(items: seq<EventLogItem>)
    ensures |Replay(items)| <= MaxEvents
    ensures |Replay(items)| == Min(|items|, MaxEvents)
  {
    if items != [] {
      ReplayBounded(items[..|items| - 1]);
    }
  }

  /** The log is exactly the ten newest events, newest first. */
  lemma {:induction false} ReplayKeepsNewest(items: seq<EventLogItem>)
    ensures Replay(items) == Reverse(items)[..Min(|items|, MaxEvents)]
  {
    if items != [] {
      var n := |items|;
      var init := items[..n - 1];
      ReplayKeepsNewest(init);
      var k := Min(9, n - 1);
      calc {
        Replay(items);
        [items[n - 1]] + Replay(init)[..k];
        [items[n - 1]] + Reverse(init)[..Min(n - 1, MaxEvents)][..k];
        { assert Reverse(init)[..Min(n - 1, MaxEvents)][..k] == Reverse(init)[..k]; }
        [items[n - 1]] + Reverse(init)[..k];
        ([items[n - 1]] + Reverse(init))[..k + 1];
        Reverse(items)[..Min(n, MaxEvents)];
      }
    }
  }

  /** What the panel sends out. */
  datatype Effect =
    | EmitNotification(notificationType: string, title: string, source: string)
    | EmitUserSelected(userId: string, source: string)
    | EmitProductSelected(productId: string, source: string)
    | BridgeSetToken(token: string)
    | BridgeRequestToken
    | BridgeClearToken
    | StoreSelectUser(userId: string)
    | StoreSelectProduct(productId: string)
    | ToastInfo(text: Option<string>)
    | ToastSuccess(successText: string)

  /** The bus events the panel subscribes to. */
  datatype BusEvent = UserSelectedEvent | ProductSelectedEvent | NotificationEvent

  function KindOf(e: BusEvent): (k: EventKind)
    ensures k != TokenUpdated
  {
    match e
    case UserSelectedEvent => UserSelected
    case ProductSelectedEvent => ProductSelected
    case NotificationEvent => Notification
  }

  /** `data.token || null`: an empty token counts as none. */
  function TokenOrNull(t: Option<string>): (r: Option<string>)
    ensures r.Some? <==> t.Some? && t.value != ""
    ensures r.Some? ==> r == t
  {
    if t.Some? && t.value != "" then t else None
  }

  /** The log item `addLog` builds at time `now`. */
  function LogItem(kind: EventKind, source: Option<string>, now: nat): (it: EventLogItem)
    ensures it.kind == kind && it.source == source && it.timestamp == now
    ensures |it.id| >= 1 && IsDigits(it.id) && DigitsValue(it.id) == now
  {
    NatToStringValue(now);
    EventLogItem(NatToString(now), kind, source, now)
  }

  /** Items logged at different times have different ids, so the list keys stay distinct. */
  lemma LogItemIdsDistinct(k1: EventKind, s1: Option<string>, t1: nat, k2: EventKind, s2: Option<string>, t2: nat)
    requires t1 != t2
    ensures LogItem(k1, s1, t1).id != LogItem(k2, s2, t2).id
  {
    NatToStringInjective(t1, t2);
  }

  /** The panel's state. */
  class Demo {
    var eventLog: seq<EventLogItem>
    var message: string
    var token: Option<string>
    var effects: seq<Effect>

    ghost predicate Valid()
      reads this
    {
      |eventLog| <= MaxEvents
    }

    /** The initial state: no events, no message, no token. */
    constructor ()
      ensures eventLog == [] && message == "" && token == None && effects == []
      ensures Valid()
    {
      eventLog := [];
      message := "";
      token := None;
      effects := [];
    }

    /** The mount effect reads the bridge's current token as it is. */
    method OnMount(bridgeToken: Option<string>)
      modifies this
      ensures token == bridgeToken
      ensures eventLog == old(eventLog) && message == old(message) && effects == old(effects)
    {
      token := bridgeToken;
    }

    /** `addLog(type, source)` at time `now`. */
    method Log(kind: EventKind, source: Option<string>, now: nat)
      modifies this
      ensures eventLog == AddLog(old(eventLog), LogItem(kind, source, now))
      ensures message == old(message) && token == old(token) && effects == old(effects)
      ensures Valid()
    {
      eventLog := AddLog(eventLog, LogItem(kind, source, now));
    }

    /** A `token:updated` event from the bridge: store the token, or none if it is empty, and log it. */
    method OnTokenUpdated(payloadToken: Option<string>, source: Option<string>, now: nat)
      modifies this
      ensures token == TokenOrNull(payloadToken)
      ensures eventLog == AddLog(old(eventLog), LogItem(TokenUpdated, source, now))
      ensures message == old(message) && effects == old(effects)
      ensures Valid()
    {
      token := TokenOrNull(payloadToken);
      Log(TokenUpdated, source, now);
    }

    /** A bus event: one log entry of its kind; a notification also shows its title. */
    method OnBusEvent(e: BusEvent, source: Option<string>, title: Option<string>, now: nat)
      modifies this
      ensures eventLog == AddLog(old(eventLog), LogItem(KindOf(e), source, now))
      ensures e == NotificationEvent ==> effects == old(effects) + [ToastInfo(title)]
      ensures e != NotificationEvent ==> effects == old(effects)
      ensures message == old(message) && token == old(token)
      ensures Valid()
    {
      Log(KindOf(e), source, now);
      if e == NotificationEvent {
        effects := effects + [ToastInfo(title)];
      }
    }

    /** Typing in the message box. */
    method SetMessage(text: string)
      modifies this
      ensures message == text
      ensures eventLog == old(eventLog) && token == old(token) && effects == old(effects)
    {
      message := text;
    }

    /** `handleBroadcast`: an empty message does nothing; otherwise emit it once and clear the box. */
    method HandleBroadcast()
      modifies this
      ensures old(message) == "" ==> message == "" && effects == old(effects)
      ensures old(message) != "" ==>
        message == "" && effects == old(effects) + [EmitNotification("info", old(message), Source)]
      ensures eventLog == old(eventLog) && token == old(token)
    {
      if message != "" {
        effects := effects + [EmitNotification("info", message, Source)];
        message := "";
      }
    }

    /** `handleSetToken`: a fresh token from the clock, pushed to the bridge and kept locally. */
    method HandleSetToken(now: nat)
      modifies this
      ensures token == Some("dist_token_" + NatToString(now))
      ensures effects == old(effects) + [BridgeSetToken(token.value), ToastSuccess("Token set and synced")]
      ensures eventLog == old(eventLog) && message == old(message)
    {
      var newToken := "dist_token_" + NatToString(now);
      effects := effects + [BridgeSetToken(newToken), ToastSuccess("Token set and synced")];
      token := Some(newToken);
    }

    /** `handleSelectUser`: select a user id made from the clock in the store, and announce it. */
    method HandleSelectUser(now: nat)
      modifies this
      ensures var userId := "dist-user-" + NatToString(now);
        effects == old(effects) + [StoreSelectUser(userId), EmitUserSelected(userId, Source)]
      ensures eventLog == old(eventLog) && message == old(message) && token == old(token)
    {
      var userId := "dist-user-" + NatToString(now);
      effects := effects + [StoreSelectUser(userId), EmitUserSelected(userId, Source)];
    }

    /** `handleSelectProduct`: the same for a product id. */
    method HandleSelectProduct(now: nat)
      modifies this
      ensures var productId := "dist-product-" + NatToString(now);
        effects == old(effects) + [StoreSelectProduct(productId), EmitProductSelected(productId, Source)]
      ensures eventLog == old(eventLog) && message == old(message) && token == old(token)
    {
      var productId := "dist-product-" + NatToString(now);
      effects := effects + [StoreSelectProduct(productId), EmitProductSelected(productId, Source)];
    }

    /** The Request button asks the bridge for the token; the answer arrives as `token:updated`. */
    method RequestToken()
      modifies this
      ensures effects == old(effects) + [BridgeRequestToken]
      ensures eventLog == old(eventLog) && message == old(message) && token == old(token)
    {
      effects := effects + [BridgeRequestToken];
    }

    /** The Clear button clears the bridge and forgets the token. */
    method ClearToken()
      modifies this
      ensures token == None
      ensures effects == old(effects) + [BridgeClearToken]
      ensures eventLog == old(eventLog) && message == old(message)
    {
      effects := effects + [BridgeClearToken];
      token := None;
    }
  }

  /** A broadcast with an empty box emits nothing; a second broadcast after a real one emits nothing more. */
  method BroadcastTwice(d: Demo, text: string)
    modifies d
    ensures text == "" ==> d.effects == old(d.effects)
    ensures text != "" ==> d.effects == old(d.effects) + [EmitNotification("info", text, Source)]
    ensures d.message == ""
  {
    d.SetMessage(text);
    d.HandleBroadcast();
    d.HandleBroadcast();
  }
}
