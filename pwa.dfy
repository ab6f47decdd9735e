/**
 * The PWA manager: its event registry (`on`, `off`, `emit`), the decoding of
 * the push server's key, the deferred install prompt, the notification
 * permission request and the guard on caching URLs.
 * Callbacks are compared by identity, so they are modelled as identifiers.
 */
module Pwa {
  import opened Wrappers

  type Callback = nat

  /** The object passed to each callback. */
  datatype PwaEvent = PwaEvent(kind: string, message: string, data: Option<string>)

  /** The index of the first occurrence of `x` in `s`. */
  function IndexOf(s: seq<Callback>, x: Callback): (i: nat)
    requires x in s
    ensures i < |s| && s[i] == x
    ensures forall j :: 0 <= j < i ==> s[j] != x
  {
    if s[0] == x then 0 else 1 + IndexOf(s[1..], x)
  }

  /** `indexOf` and `splice(index, 1)`: the first occurrence removed, or no change when there is none. */
  function RemoveFirst(s: seq<Callback>, x: Callback): (r: seq<Callback>)
    ensures x !in s ==> r == s
    ensures x in s ==> r == s[..IndexOf(s, x)] + s[IndexOf(s, x) + 1..]
    ensures x in s ==> |r| == |s| - 1 && multiset(r) == multiset(s) - multiset{x}
  {
    if x !in s then s
    else
      var i := IndexOf(s, x);
      assert s == s[..i] + [s[i]] + s[i + 1..];
      s[..i] + s[i + 1..]
  }

  /** Removing a callback registered twice leaves the later registration in place. */
  lemma DuplicateSurvivesOff(s: seq<Callback>, x: Callback)
    requires multiset(s)[x] >= 2
    ensures x in RemoveFirst(s, x)
  {
    assert x in multiset(s);
    var r := RemoveFirst(s, x);
    assert multiset(r) == multiset(s) - multiset{x};
    assert x in multiset(r);
  }

  datatype Permission = Granted | Denied | Default

  /**
   * `requestNotificationPermission`: denied without notification support,
   * granted when already granted, the user's answer when not yet decided,
   * and denied when already denied (the user is not asked then).
   */
  function RequestNotificationPermission(supported: bool, current: Permission, answer: Permission): (r: Permission)
    ensures !supported ==> r == Denied
    ensures supported && current == Granted ==> r == Granted
    ensures supported && current == Default ==> r == answer
    ensures supported && current == Denied ==> r == Denied
  {
    if !supported then Denied
    else if current == Granted then Granted
    else if current != Denied then answer
    else current
  }

  /** The user is asked only when notifications are supported and undecided. */
  lemma AskedOnlyWhenUndecided(supported: bool, current: Permission, a: Permission, b: Permission)
    ensures RequestNotificationPermission(supported, current, a) != RequestNotificationPermission(supported, current, b)
      ==> supported && current == Default
  {
  }

  /** The service worker registration as far as `cacheUrls` looks at it. */
  datatype Registration = Registration(hasActive: bool)

  /** `cacheUrls`: the `CACHE_URLS` message posted to the active worker, or nothing without one. */
  function CacheUrlsMessage(registration: Option<Registration>, urls: seq<string>): (r: Option<(string, seq<string>)>)
    ensures r.Some? <==> registration.Some? && registration.value.hasActive
    ensures r.Some? ==> r.value == ("CACHE_URLS", urls)
  {
    if registration.None? || !registration.value.hasActive then None else Some(("CACHE_URLS", urls))
  }

  /** The length of the `'='` padding: what brings the length up to a multiple of four. */
  function PaddingLength(n: nat): (p: nat)
    ensures p <= 3 && (n + p) % 4 == 0
  {
    (4 - n % 4) % 4
  }

  function Repeat(c: char, n: nat): (r: string)
    ensures |r| == n && forall i :: 0 <= i < n ==> r[i] == c
  {
    if n == 0 then "" else [c] + Repeat(c, n - 1)
  }

  /** The URL-safe alphabet mapped to the standard one: `-` to `+` and `_` to `/`. */
  function Standard(c: char): char
  {
    if c == '-' then '+' else if c == '_' then '/' else c
  }

  function MapStandard(s: string): (r: string)
    ensures |r| == |s| && forall i :: 0 <= i < |s| ==> r[i] == Standard(s[i])
  {
    if s == [] then "" else [Standard(s[0])] + MapStandard(s[1..])
  }

  /** The string handed to `atob`: the key padded with `=` and in the standard alphabet. */
  function StandardBase64(key: string): (r: string)
    ensures |r| % 4 == 0 && |key| <= |r| <= |key| + 3
    ensures forall i :: 0 <= i < |r| ==> r[i] != '-' && r[i] != '_'
    ensures forall i :: 0 <= i < |key| ==> r[i] == Standard(key[i])
    ensures forall i :: |key| <= i < |r| ==> r[i] == '='
  {
    MapStandard(key + Repeat('=', PaddingLength(|key|)))
  }

  /** A key already a multiple of four long gets no padding. */
  lemma AlignedKeyUnpadded(key: string)
    requires |key| % 4 == 0
    ensures |StandardBase64(key)| == |key|
  {
  }

  /** What a `Uint8Array` keeps of a character code: its low eight bits. */
  function Byte(c: char): int
  {
    (c as int) % 256
  }

  /**
   * `urlBase64ToUint8Array`, with `atob` given (`None` where it throws): one
   * byte per decoded character, each that character's code.
   */
  method UrlBase64ToUint8Array(key: string, atob: string -> Option<string>) returns (out: Option<array<int>>)
    ensures out.Some? <==> atob(StandardBase64(key)).Some?
    ensures out.Some? ==> fresh(out.value) && out.value.Length == |atob(StandardBase64(key)).value|
    ensures out.Some? ==> forall i :: 0 <= i < out.value.Length ==> out.value[i] == Byte(atob(StandardBase64(key)).value[i])
  {
    var rawData := atob(StandardBase64(key));
    if rawData.None? {
      return None;
    }
    var raw := rawData.value;
    var outputArray := new int[|raw|];
    for i := 0 to |raw|
      invariant forall j :: 0 <= j < i ==> outputArray[j] == Byte(raw[j])
    {
      outputArray[i] := Byte(raw[i]);
    }
    out := Some(outputArray);
  }

  /** A decoded binary string (every code below 256) is copied exactly. */
  lemma BinaryStringCopied(raw: string, i: nat)
    requires i < |raw| && raw[i] as int < 256
    ensures Byte(raw[i]) == raw[i] as int
  {
  }

  class Manager {
    var callbacks: map<string, seq<Callback>>
    /** The held `beforeinstallprompt` event, by its identifier. */
    var deferredPrompt: Option<nat>
    var registration: Option<Registration>

    constructor (registration: Option<Registration>)
      ensures callbacks == map[] && deferredPrompt.None? && this.registration == registration
    {
      callbacks, deferredPrompt := map[], None;
      this.registration := registration;
    }

    /** The callbacks registered for an event, in registration order. */
    function Registered(event: string): seq<Callback>
      reads this
    {
      if event in callbacks then callbacks[event] else []
    }

    /** `on`: the callback is appended to the event's list, which is created if absent; duplicates are kept. */
    method On(event: string, callback: Callback)
      modifies this
      ensures callbacks == old(callbacks)[event := old(Registered(event)) + [callback]]
      ensures deferredPrompt == old(deferredPrompt) && registration == old(registration)
    {
      if event !in callbacks {
        callbacks := callbacks[event := []];
      }
      callbacks := callbacks[event := callbacks[event] + [callback]];
    }

    /** `off`: the first registration of the callback is removed; an unknown event or callback changes nothing. */
    method Off(event: string, callback: Callback)
      modifies this
      ensures event !in old(callbacks) ==> callbacks == old(callbacks)
      ensures event in old(callbacks) ==> callbacks == old(callbacks)[event := RemoveFirst(old(callbacks)[event], callback)]
      ensures deferredPrompt == old(deferredPrompt) && registration == old(registration)
    {
      if event in callbacks {
        var list := callbacks[event];
        if callback in list {
          var index := IndexOf(list, callback);
          callbacks := callbacks[event := list[..index] + list[index + 1..]];
        }
      }
    }

    /** `emit`: each registered callback, in registration order, with the event's type, message and data. */
    method Emit(event: string, message: string, data: Option<string>) returns (calls: seq<(Callback, PwaEvent)>)
      ensures |calls| == |Registered(event)|
      ensures forall i :: 0 <= i < |calls| ==> calls[i] == (Registered(event)[i], PwaEvent(event, message, data))
    {
      calls := [];
      var list := Registered(event);
      var i := 0;
      while i < |list|
        invariant 0 <= i <= |list|
        invariant |calls| == i
        invariant forall j :: 0 <= j < i ==> calls[j] == (list[j], PwaEvent(event, message, data))
      {
        calls := calls + [(list[i], PwaEvent(event, message, data))];
        i := i + 1;
      }
    }

    /** `canInstall`: a deferred prompt is held. */
    predicate CanInstall()
      reads this
    {
      deferredPrompt.Some?
    }

    /** The `beforeinstallprompt` listener: the event is held and `installAvailable` emitted. */
    method BeforeInstallPrompt(promptEvent: nat) returns (calls: seq<(Callback, PwaEvent)>)
      modifies this
      ensures deferredPrompt == Some(promptEvent) && CanInstall()
      ensures callbacks == old(callbacks) && registration == old(registration)
      ensures |calls| == |Registered("installAvailable")|
    {
      deferredPrompt := Some(promptEvent);
      calls := Emit("installAvailable", "App can be installed", None);
    }

    /** The `appinstalled` listener: the prompt is dropped and `appInstalled` emitted. */
    method AppInstalled() returns (calls: seq<(Callback, PwaEvent)>)
      modifies this
      ensures deferredPrompt.None? && !CanInstall()
      ensures callbacks == old(callbacks) && registration == old(registration)
      ensures |calls| == |Registered("appInstalled")|
    {
      deferredPrompt := None;
      calls := Emit("appInstalled", "App installed successfully", None);
    }

    /**
     * `promptInstall`, given the user's choice (`None` when the prompt throws):
     * false without a held prompt; otherwise the prompt is used up and the
     * result is whether the user accepted. A prompt that throws is kept.
     */
    method PromptInstall(choice: Option<string>) returns (accepted: bool)
      modifies this
      ensures old(deferredPrompt).None? ==> !accepted && deferredPrompt.None?
      ensures old(deferredPrompt).Some? && choice.None? ==> !accepted && deferredPrompt == old(deferredPrompt)
      ensures old(deferredPrompt).Some? && choice.Some? ==> accepted == (choice.value == "accepted") && deferredPrompt.None?
      ensures callbacks == old(callbacks) && registration == old(registration)
    {
      if deferredPrompt.None? {
        return false;
      }
      if choice.None? {
        return false;
      }
      deferredPrompt := None;
      accepted := choice.value == "accepted";
    }
  }
}
