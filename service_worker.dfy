/**
 * The service worker's two listeners: `push` turns the pushed data into a
 * notification, field by field with fallbacks; `notificationclick` closes
 * the notification and focuses the app's window or opens the notification's
 * url.
 */
module ServiceWorker {
  import opened Wrappers
  import opened Text
  import opened Delivery
  import SendReminders
  import SendTestNotification

  /** `event.data`: absent, or present with its text. */
  datatype PushData = NoData | Data(text: string)

  /**
   * The object `data` ends up as. A field that is absent or `null` is
   * `None`; fields of other JSON types are not modelled.
   */
  datatype Fields = Fields(title: Option<string>, body: Option<string>, url: Option<string>)

  /**
   * What `event.data.json()` does: it throws on text that is not JSON,
   * returns `null`, or returns a value whose three fields are read (a
   * number, string or array reads as all fields absent).
   */
  datatype Parsed = Threw | JsonNull | Value(fields: Fields)

  const DefaultTitle: string := "Organizador Financeiro"
  const DefaultBody: string := "Você tem uma nova notificação."
  const DefaultUrl: string := "/"
  const UnparsedTitle: string := "Nova Mensagem"
  const Icon: string := "/pwa-192x192.png"
  const Vibrate: seq<int> := [100, 50, 100]

  datatype Action = Action(action: string, title: string)

  const OpenAction: Action := Action("open", "Abrir App")

  /** The `title` and `options` handed to `showNotification`. */
  datatype Notification = Notification(title: string, body: string, icon: string, badge: string, data: string,
                                       vibrate: seq<int>, actions: seq<Action>)

  /**
   * The `data` variable after the `if`/`try`: empty with no data, the parsed
   * value when `parse` (standing for `event.data.json()`) returns, and the
   * fixed title with the raw text as body when it throws; `None` stands for
   * a `data` that is `null`.
   */
  function DataOf(d: PushData, parse: string -> Parsed): (f: Option<Fields>)
    ensures f.None? <==> d.Data? && parse(d.text).JsonNull?
    ensures d.NoData? ==> f == Some(Fields(None, None, None))
    ensures d.Data? && parse(d.text).Value? ==> f == Some(parse(d.text).fields)
    ensures d.Data? && parse(d.text).Threw? ==> f == Some(Fields(Some(UnparsedTitle), Some(d.text), None))
  {
    match d
    case NoData => Some(Fields(None, None, None))
    case Data(text) =>
      match parse(text)
      case Value(fields) => Some(fields)
      case JsonNull => None
      case Threw => Some(Fields(Some(UnparsedTitle), Some(text), None))
  }

  /**
   * The notification the `push` listener shows, or `None` when reading
   * `data.title` of a `null` throws before `showNotification` is reached.
   */
  function Show(d: PushData, parse: string -> Parsed): Option<Notification> {
    match DataOf(d, parse)
    case None => None
    case Some(data) =>
      Some(Notification(OrElse(data.title, DefaultTitle), OrElse(data.body, DefaultBody), Icon, Icon,
                        OrElse(data.url, DefaultUrl), Vibrate, [OpenAction]))
  }

  /** A pushed JSON `null` shows nothing; every other push shows a notification. */
  lemma NullShowsNothing(d: PushData, parse: string -> Parsed)
    ensures Show(d, parse).None? <==> d.Data? && parse(d.text) == JsonNull
  {
  }

  /** Without data the notification is the default one, pointing at the app root. */
  lemma ShowNoData(parse: string -> Parsed)
    ensures Show(NoData, parse).Some?
    ensures var n := Show(NoData, parse).value;
      n.title == DefaultTitle && n.body == DefaultBody && n.data == DefaultUrl
  {
  }

  /** Data that is not JSON is shown under the fixed title with its raw text as body (the default when empty). */
  lemma ShowUnparsable(text: string, parse: string -> Parsed)
    requires parse(text).Threw?
    ensures Show(Data(text), parse).Some?
    ensures var n := Show(Data(text), parse).value;
      && n.title == UnparsedTitle
      && n.body == (if text == "" then DefaultBody else text)
      && n.data == DefaultUrl
  {
  }

  /**
   * Each of title, body and url falls back on its own: a truthy field is
   * shown as it is whatever the others hold, a missing or empty one is
   * replaced by its default.
   */
  lemma FieldsFallBackIndependently(fields: Fields, text: string, parse: string -> Parsed)
    requires parse(text) == Value(fields)
    ensures Show(Data(text), parse).Some?
    ensures var n := Show(Data(text), parse).value;
      && n.title == (if Falsy(fields.title) then DefaultTitle else fields.title.value)
      && n.body == (if Falsy(fields.body) then DefaultBody else fields.body.value)
      && n.data == (if Falsy(fields.url) then DefaultUrl else fields.url.value)
  {
  }

  /** Every notification carries one `open` action, the fixed vibration pattern and the app icon. */
  lemma ShowFixedOptions(d: PushData, parse: string -> Parsed)
    ensures Show(d, parse).Some? ==> var n := Show(d, parse).value;
      n.actions == [Action("open", "Abrir App")] && n.vibrate == [100, 50, 100] && n.icon == n.badge == Icon
  {
  }

  /**
   * The round trip from the handlers to the screen: when `parse` reads back
   * what `encode` (`JSON.stringify`) wrote, a payload with non-empty title,
   * body and url is shown with exactly those three.
   */
  lemma PayloadRoundTrip(p: Payload, encode: Payload -> string, parse: string -> Parsed)
    requires parse(encode(p)) == Value(Fields(Some(p.title), Some(p.body), Some(p.url)))
    requires p.title != "" && p.body != "" && p.url != ""
    ensures Show(Data(encode(p)), parse).Some?
    ensures var n := Show(Data(encode(p)), parse).value;
      n.title == p.title && n.body == p.body && n.data == p.url
  {
  }

  /** A bill reminder is shown with its own title and text, and a click leads to the bills page. */
  lemma ReminderShown(bill: SendReminders.Bill, encode: Payload -> string, parse: string -> Parsed)
    requires var p := SendReminders.ReminderPayload(bill);
      parse(encode(p)) == Value(Fields(Some(p.title), Some(p.body), Some(p.url)))
    ensures Show(Data(encode(SendReminders.ReminderPayload(bill))), parse).Some?
    ensures var n := Show(Data(encode(SendReminders.ReminderPayload(bill))), parse).value;
      && n.title == "Fatura Vencendo!"
      && n.body == SendReminders.ReminderPayload(bill).body
      && n.data == "/faturas"
  {
    var p := SendReminders.ReminderPayload(bill);
    assert p.body[0] == 'A';
    PayloadRoundTrip(p, encode, parse);
  }

  /** The test message is shown as sent, pointing at the app root. */
  lemma TestShown(encode: Payload -> string, parse: string -> Parsed)
    requires var p := SendTestNotification.TestPayload;
      parse(encode(p)) == Value(Fields(Some(p.title), Some(p.body), Some(p.url)))
    ensures Show(Data(encode(SendTestNotification.TestPayload)), parse).Some?
    ensures var n := Show(Data(encode(SendTestNotification.TestPayload)), parse).value;
      && n.title == SendTestNotification.TestPayload.title
      && n.body == SendTestNotification.TestPayload.body
      && n.data == "/"
  {
    PayloadRoundTrip(SendTestNotification.TestPayload, encode, parse);
  }

  // ---------------------------------------------------------------------
  // notificationclick
  // ---------------------------------------------------------------------

  /** A window client: its url and whether it has `focus`. */
  datatype Client = Client(url: string, focusable: bool)

  /** What the click handler ends with. */
  datatype ClickAction = Focus(index: nat) | OpenWindow(url: string) | NoAction

  /** The click's effect: the notification is closed, then one action. */
  datatype Click = Click(closed: bool, action: ClickAction)

  predicate IsAppWindow(c: Client) {
    c.url == "/" && c.focusable
  }

  /** The first app window from position `from` on, by the `for ... of` with early return. */
  function FirstAppWindow(clients: seq<Client>, from: nat): (r: Option<nat>)
    requires from <= |clients|
    ensures r.Some? ==> from <= r.value < |clients| && IsAppWindow(clients[r.value])
                        && forall j :: from <= j < r.value ==> !IsAppWindow(clients[j])
    ensures r.None? ==> forall j :: from <= j < |clients| ==> !IsAppWindow(clients[j])
    decreases |clients| - from
  {
    if from == |clients| then None
    else if IsAppWindow(clients[from]) then Some(from)
    else FirstAppWindow(clients, from + 1)
  }

  /**
   * The click handler; `canOpen` says whether `clients.openWindow` exists,
   * and `data` is the notification's url.
   */
  function OnClick(clients: seq<Client>, data: string, canOpen: bool): Click {
    var first := FirstAppWindow(clients, 0);
    Click(true, if first.Some? then Focus(first.value) else if canOpen then OpenWindow(data) else NoAction)
  }

  /**
   * The notification is always closed; the first focusable window at `/`
   * is focused if there is one, and only otherwise is the notification's
   * url opened.
   */
  lemma ClickFocusesOrOpens(clients: seq<Client>, data: string, canOpen: bool)
    ensures var c := OnClick(clients, data, canOpen);
      && c.closed
      && (c.action.Focus? <==> exists i :: 0 <= i < |clients| && IsAppWindow(clients[i]))
      && (c.action.Focus? ==> c.action.index < |clients| && IsAppWindow(clients[c.action.index])
                              && forall j :: 0 <= j < c.action.index ==> !IsAppWindow(clients[j]))
      && (c.action.OpenWindow? <==> canOpen && forall i :: 0 <= i < |clients| ==> !IsAppWindow(clients[i]))
      && (c.action.OpenWindow? ==> c.action.url == data)
  {
    var first := FirstAppWindow(clients, 0);
    if first.Some? {
      assert IsAppWindow(clients[first.value]);
    }
  }
}
