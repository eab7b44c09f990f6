/**
 * The browser side of push registration: turning the public VAPID key from
 * its URL-safe base64 text into the bytes the push manager expects, the
 * permission request, and subscribing with the subscription saved to the
 * table by endpoint.
 */
module PushClient {
  import opened Wrappers
  import opened Text
  import opened Subscriptions

  /** An element of a `Uint8Array`. */
  type Byte = b: int | 0 <= b < 256

  // ---------------------------------------------------------------------
  // Key conversion
  // ---------------------------------------------------------------------

  /** `c.repeat(n)`. */
  function Repeat(c: char, n: nat): (s: string)
    ensures |s| == n
    ensures forall i :: 0 <= i < n ==> s[i] == c
  {
    if n == 0 then [] else [c] + Repeat(c, n - 1)
  }

  /** `'='.repeat((4 - s.length % 4) % 4)`. */
  function Padding(s: string): string {
    Repeat('=', (4 - |s| % 4) % 4)
  }

  /**
   * The padding of section 3.2 of RFC 4648: at most three `=`, bringing
   * the length to a multiple of four (so no shorter padding would).
   */
  lemma PaddingCompletesQuantum(s: string)
    ensures var p := Padding(s);
      && 0 <= |p| <= 3
      && (forall i :: 0 <= i < |p| ==> p[i] == '=')
      && (|s| + |p|) % 4 == 0
  {
  }

  /** `s.replace(/from/g, to)` for a single character. */
  function ReplaceAll(s: string, from: char, to: char): (r: string)
    ensures |r| == |s|
    ensures forall i :: 0 <= i < |s| ==> r[i] == (if s[i] == from then to else s[i])
  {
    if s == [] then [] else ReplaceAll(s[..|s| - 1], from, to) + [if s[|s| - 1] == from then to else s[|s| - 1]]
  }

  /** `.replace(/\-/g, '+').replace(/_/g, '/')`. */
  function ToStandardAlphabet(s: string): string {
    ReplaceAll(ReplaceAll(s, '-', '+'), '_', '/')
  }

  /** The reverse translation, from the alphabet of section 4 of RFC 4648 to that of section 5. */
  function ToUrlSafeAlphabet(s: string): string {
    ReplaceAll(ReplaceAll(s, '+', '-'), '/', '_')
  }

  /** A text that uses neither `+` nor `/`, as every URL-safe base64 text. */
  predicate UrlSafe(s: string) {
    forall i :: 0 <= i < |s| ==> s[i] != '+' && s[i] != '/'
  }

  /**
   * The two chained replacements translate character by character: `-`
   * becomes `+`, `_` becomes `/`, everything else stays, the length is kept
   * and no URL-safe letter is left.
   */
  lemma StandardAlphabetPerCharacter(s: string)
    ensures var t := ToStandardAlphabet(s);
      && |t| == |s|
      && (forall i :: 0 <= i < |s| ==> t[i] == (if s[i] == '-' then '+' else if s[i] == '_' then '/' else s[i]))
      && forall i :: 0 <= i < |t| ==> t[i] != '-' && t[i] != '_'
  {
    var u := ReplaceAll(s, '-', '+');
    assert forall i :: 0 <= i < |s| ==> u[i] != '-';
  }

  /** On URL-safe text the translation loses nothing: translating back restores it. */
  lemma AlphabetRoundTrip(s: string)
    requires UrlSafe(s)
    ensures ToUrlSafeAlphabet(ToStandardAlphabet(s)) == s
  {
    StandardAlphabetPerCharacter(s);
    var t := ToStandardAlphabet(s);
    var back := ToUrlSafeAlphabet(t);
    var v := ReplaceAll(t, '+', '-');
    assert forall i :: 0 <= i < |s| ==> v[i] == (if s[i] == '_' then '/' else s[i]);
    assert forall i :: 0 <= i < |s| ==> back[i] == s[i];
  }

  /** The text handed to `atob`: padded, then translated. */
  function Base64Text(key: string): string {
    ToStandardAlphabet(key + Padding(key))
  }

  /** The text handed to `atob` is whole quanta of four, in the standard alphabet, and starts with the translated key. */
  lemma Base64TextShape(key: string)
    ensures var t := Base64Text(key);
      && |t| % 4 == 0
      && |t| - |key| <= 3
      && t[..|key|] == ToStandardAlphabet(key)
      && forall i :: |key| <= i < |t| ==> t[i] == '='
  {
    PaddingCompletesQuantum(key);
    StandardAlphabetPerCharacter(key + Padding(key));
    StandardAlphabetPerCharacter(key);
    var t := Base64Text(key);
    assert forall i :: 0 <= i < |key| ==> t[i] == ToStandardAlphabet(key)[i];
  }

  /** The `Uint8Array` conversion of a number: its value modulo 256. */
  function ToUint8(n: int): (b: Byte)
    ensures 0 <= n < 256 ==> b == n
  {
    n % 256
  }

  /** The counting loop: byte i is the code of character i. */
  method FillBytes(raw: string) returns (out: array<Byte>)
    ensures fresh(out) && out.Length == |raw|
    ensures forall i :: 0 <= i < |raw| ==> out[i] == ToUint8(raw[i] as int)
  {
    out := new Byte[|raw|](_ => 0);
    var i := 0;
    while i < |raw|
      invariant 0 <= i <= |raw|
      invariant forall k :: 0 <= k < i ==> out[k] == ToUint8(raw[k] as int)
    {
      out[i] := ToUint8(raw[i] as int);
      i := i + 1;
    }
  }

  /**
   * `urlBase64ToUint8Array`: `atob` (section 4 of RFC 4648, not modelled)
   * either throws, with its message, or yields a binary string.
   */
  method UrlBase64ToBytes(key: string, atob: string -> Result<string, string>)
    returns (r: Result<array<Byte>, string>)
    ensures atob(Base64Text(key)).Failure? ==> r == Failure(atob(Base64Text(key)).error)
    ensures atob(Base64Text(key)).Success? ==>
      var raw := atob(Base64Text(key)).value;
      && r.Success? && fresh(r.value) && r.value.Length == |raw|
      && forall i :: 0 <= i < |raw| ==> r.value[i] == ToUint8(raw[i] as int)
  {
    var decoded := atob(Base64Text(key));
    if decoded.Failure? {
      return Failure(decoded.error);
    }
    var out := FillBytes(decoded.value);
    r := Success(out);
  }

  // ---------------------------------------------------------------------
  // Permission
  // ---------------------------------------------------------------------

  /** What `Notification.requestPermission()` resolves to. */
  datatype Permission = Granted | Denied | Default

  const PermissionRefusedMessage: string := "Permissão de notificação negada or dispensada."

  /** `requestPermission` returns `'granted'` or throws; it never returns another answer. */
  function RequestPermission(answer: Permission): (r: Result<Permission, string>)
    ensures r.Success? <==> answer == Granted
    ensures r.Success? ==> r.value == Granted
    ensures r.Failure? ==> r.error == PermissionRefusedMessage
  {
    if answer != Granted then Failure(PermissionRefusedMessage) else Success(answer)
  }

  // ---------------------------------------------------------------------
  // Subscribing
  // ---------------------------------------------------------------------

  /** A browser push subscription: its endpoint and `toJSON().keys`. */
  datatype BrowserSubscription = BrowserSubscription(endpoint: string, keys: Keys)

  /** The service-worker registration's push manager and the subscription it holds. */
  class PushManager {
    var current: Option<BrowserSubscription>

    constructor (current: Option<BrowserSubscription>)
      ensures this.current == current
    {
      this.current := current;
    }

    /** `getSubscription()`. */
    method GetSubscription() returns (s: Option<BrowserSubscription>)
      ensures s == current
    {
      s := current;
    }

    /** `subscribe(...)`: the browser's answer, kept as the current subscription when it succeeds. */
    method Subscribe(answer: Result<BrowserSubscription, string>) returns (r: Result<BrowserSubscription, string>)
      modifies this
      ensures r == answer
      ensures current == if answer.Success? then Some(answer.value) else old(current)
    {
      if answer.Success? {
        current := Some(answer.value);
      }
      r := answer;
    }
  }

  /**
   * The reuse-or-create step: the subscription the manager already holds,
   * or, when it holds none, a new one, created only after the key converts.
   */
  method ObtainSubscription(registration: PushManager, vapidKey: string, atob: string -> Result<string, string>,
                            answer: Result<BrowserSubscription, string>)
    returns (r: Result<BrowserSubscription, string>)
    modifies registration
    ensures old(registration.current).Some? ==>
              r == Success(old(registration.current).value) && registration.current == old(registration.current)
    ensures old(registration.current).None? ==>
              if atob(Base64Text(vapidKey)).Failure? then
                r == Failure(atob(Base64Text(vapidKey)).error) && registration.current == old(registration.current)
              else
                r == answer && registration.current == if answer.Success? then Some(answer.value) else None
  {
    var subscription := registration.GetSubscription();
    if subscription.Some? {
      return Success(subscription.value);
    }
    var converted := UrlBase64ToBytes(vapidKey, atob);
    if converted.Failure? {
      return Failure(converted.error);
    }
    r := registration.Subscribe(answer);
  }

  const MissingKeyMessage: string := "VITE_VAPID_PUBLIC_KEY não está definida."
  const NotReadyMessage: string := "Service Worker não está pronto."

  /** What `subscribeToPushNotifications` obtains before saving: the held subscription or the created one. */
  function Obtained(current: Option<BrowserSubscription>, vapidKey: string, atob: string -> Result<string, string>,
                    answer: Result<BrowserSubscription, string>): Result<BrowserSubscription, string>
  {
    if current.Some? then Success(current.value)
    else if atob(Base64Text(vapidKey)).Failure? then Failure(atob(Base64Text(vapidKey)).error)
    else answer
  }

  /**
   * `subscribeToPushNotifications(userId)`. `vapidKey` is the build-time
   * public key, `registration` the ready service worker's push manager
   * (`null` when none), `atob` the decoder, `answer` what the browser's
   * `subscribe` resolves or rejects with, `upsertError` the table's error.
   */
  method SubscribeToPush(userId: UserId, vapidKey: Option<string>, registration: PushManager?, reg: Registry,
                         atob: string -> Result<string, string>, answer: Result<BrowserSubscription, string>,
                         upsertError: Option<string>)
    returns (r: Result<BrowserSubscription, string>)
    requires reg.Valid()
    modifies reg, registration
    ensures reg.Valid()
    // a missing key throws before the service worker or the table is touched
    ensures Falsy(vapidKey) ==> r == Failure(MissingKeyMessage) && unchanged(reg)
                                && (registration != null ==> unchanged(registration))
    ensures !Falsy(vapidKey) && registration == null ==> r == Failure(NotReadyMessage) && unchanged(reg)
    ensures !Falsy(vapidKey) && registration != null ==>
              var got := Obtained(old(registration.current), vapidKey.value, atob, answer);
              // the browser holds the obtained subscription, whatever the table then answers
              && registration.current == (if got.Success? then Some(got.value) else old(registration.current))
              && (got.Failure? ==> r == got && unchanged(reg))
              && (got.Success? && upsertError.Some? ==> r == Failure(upsertError.value) && unchanged(reg))
              && (got.Success? && upsertError.None? ==>
                    && r == got
                    && reg.rows == UpsertByEndpoint(old(reg.rows), userId, got.value.endpoint, got.value.keys,
                                                    old(reg.nextId)))
  {
    if Falsy(vapidKey) {
      return Failure(MissingKeyMessage);
    }
    if registration == null {
      return Failure(NotReadyMessage);
    }
    var subscription := ObtainSubscription(registration, vapidKey.value, atob, answer);
    if subscription.Failure? {
      return subscription;
    }
    if upsertError.Some? {
      return Failure(upsertError.value);
    }
    reg.Upsert(userId, subscription.value.endpoint, subscription.value.keys);
    r := subscription;
  }
}
