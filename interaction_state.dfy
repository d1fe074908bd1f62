/** InteractionStateManager.gs.js: per sender, `INTERACTION_<key>` holds the id of
    the last model interaction and when it was stored, so that a conversation can
    continue for 24 hours; and the sender key itself, a 32-bit hash of the reply
    address. */
module InteractionState {
  import opened Wrappers
  import opened Text
  import opened Store
  import opened Commands

  const StatePrefix: string := "INTERACTION_"
  const DefaultExpiryHours: int := 24
  const HourMs: int := 60 * 60 * 1000

  /** `InteractionStateConfig(expiryHours).expiryMs`: a falsy (zero) number of hours
      means the default of 24. */
  function ExpiryMs(expiryHours: int): (ms: int)
    ensures expiryHours == 0 ==> ms == 86400000
    ensures expiryHours != 0 ==> ms == expiryHours * 3600000
  {
    (if expiryHours == 0 then DefaultExpiryHours else expiryHours) * HourMs
  }

  /** `getStateKey(senderKey)`. */
  function GetStateKey(senderKey: string): (k: string)
    ensures StartsWith(k, StatePrefix) && k[|StatePrefix|..] == senderKey
  {
    StatePrefix + senderKey
  }

  lemma StateKeyInjective(a: string, b: string)
    requires GetStateKey(a) == GetStateKey(b)
    ensures a == b
  {
    assert a == GetStateKey(a)[12..] && b == GetStateKey(b)[12..];
  }

  // ---------------------------------------------------------------------------
  // isNewConversationRequested

  const NewPhrases: seq<string> := ["NEW", "RESET", "FRESH", "START OVER", "NEW CONVERSATION"]
  const NewWords: seq<string> := ["NEW", "RESET", "FRESH"]

  /** `isNewConversationRequested(prompt)`: the upper-cased, trimmed prompt is one of
      the reset phrases, or starts with NEW, RESET or FRESH as a word. */
  predicate IsNewConversationRequested(prompt: string) {
    var u := Trim(Upper(prompt));
    u in NewPhrases || StartsWithKeyword(u, NewWords)
  }

  /** A trimmed prompt that starts with a reset word followed by a non-word character
      asks for a new conversation, whatever follows. */
  lemma NewWordStartsConversation(prompt: string, w: string)
    requires w in NewWords && IsTrimmed(prompt) && AtUpper(prompt, 0, w)
    requires |prompt| == |w| || !IsWordChar(prompt[|w|])
    ensures IsNewConversationRequested(prompt)
  {
    var u := Upper(prompt);
    TrimmedTrim(u);
    assert u[..|w|] == Upper(prompt[..|w|]);
    assert StartsWith(u, w);
    NewWordEndsInLetter(w);
    assert u[..|w|][|w| - 1] == w[|w| - 1];
    if |u| > |w| {
      assert !IsWordChar(u[|w|]);
    }
    assert WordBoundary(u, |w|);
  }

  lemma NewWordEndsInLetter(w: string)
    requires w in NewWords
    ensures |w| > 0 && IsWordChar(w[|w| - 1])
  {
    if w == "NEW" {
      assert w[2] == 'W';
    } else if w == "RESET" {
      assert w[4] == 'T';
    } else {
      assert w[4] == 'H';
    }
  }

  /** A word that merely starts with NEW (NEWS, NEWLY, NEW2) is not the reset word:
      such a prompt continues the conversation. */
  lemma NewPrefixIsNotReset(prompt: string)
    requires IsTrimmed(prompt) && AtUpper(prompt, 0, "NEW") && |prompt| > 3 && IsWordChar(prompt[3])
    ensures !IsNewConversationRequested(prompt)
  {
    var u := Upper(prompt);
    UpperTrimmed(prompt);
    assert u[..3] == Upper(prompt[..3]);
    assert u[0] == u[..3][0] == 'N' && u[1] == u[..3][1] == 'E' && u[2] == u[..3][2] == 'W';
    assert IsWordChar(u[3]);
    NotNewPhrase(u);
    assert !WordBoundary(u, 3);
    assert !StartsWith(u, "RESET") && !StartsWith(u, "FRESH") by {
      assert u[0] != "RESET"[0] && u[0] != "FRESH"[0];
    }
  }

  lemma NotNewPhrase(u: string)
    requires |u| > 3 && u[0] == 'N' && u[1] == 'E' && u[2] == 'W' && IsWordChar(u[3])
    ensures u !in NewPhrases
  {
  }

  /** "news" does not reset the conversation. */
  lemma NewsIsNotNew()
    ensures !IsNewConversationRequested("news")
  {
    assert Upper("news"[..3]) == "NEW";
    NewPrefixIsNotReset("news");
  }

  // ---------------------------------------------------------------------------
  // the stored state

  /** `getInteractionId(senderKey, prompt)` on a snapshot of the store: the id to
      continue with, and the store afterwards. A reset prompt clears the state. A
      missing or empty value gives no id. A value that does not parse, an age over
      `expiryMs`, and a record without an id (reading it throws) clear the state. A
      record without a timestamp has an age of NaN, which never counts as
      expired. */
  function Lookup(entries: map<string, StoredValue>, senderKey: string, prompt: string,
                  now: int, expiryMs: int): (r: (Option<string>, map<string, StoredValue>))
  {
    var key := GetStateKey(senderKey);
    if IsNewConversationRequested(prompt) then (None, entries - {key})
    else LookupStored(entries, key, now, expiryMs)
  }

  /** The lookup of the state under `key` once no reset was asked for. */
  function LookupStored(entries: map<string, StoredValue>, key: string, now: int, expiryMs: int)
    : (r: (Option<string>, map<string, StoredValue>))
    ensures r.1 == entries || r.1 == entries - {key}
  {
    if key !in entries then (None, entries)
    else match entries[key]
      case Blank => (None, entries)
      case Record(_, timestamp, interactionId) =>
        if timestamp.Some? && now - timestamp.value > expiryMs then (None, entries - {key})
        else if interactionId.None? then (None, entries - {key})
        else (interactionId, entries)
      case Garbage => (None, entries - {key})
  }

  /** The value `setInteractionId` writes. */
  function StateRecord(interactionId: string, now: int): StoredValue {
    Record(None, Some(now), Some(interactionId))
  }

  /** A reset prompt always starts afresh, even over an unexpired state. */
  lemma ResetClears(entries: map<string, StoredValue>, senderKey: string, prompt: string, now: int, expiryMs: int)
    requires IsNewConversationRequested(prompt)
    ensures Lookup(entries, senderKey, prompt, now, expiryMs) == (None, entries - {GetStateKey(senderKey)})
  {
  }

  /** The outcome of a lookup without a reset prompt: no stored state gives nothing
      and changes nothing; an age over the expiry deletes it; an age of exactly the
      expiry still continues. */
  lemma LookupAges(entries: map<string, StoredValue>, senderKey: string, prompt: string,
                   now: int, expiryMs: int)
    requires !IsNewConversationRequested(prompt)
    ensures GetStateKey(senderKey) !in entries ==> Lookup(entries, senderKey, prompt, now, expiryMs) == (None, entries)
    ensures var key := GetStateKey(senderKey);
      (key in entries && entries[key].Record? && entries[key].timestamp.Some?
        && now - entries[key].timestamp.value > expiryMs)
      ==> Lookup(entries, senderKey, prompt, now, expiryMs) == (None, entries - {key})
    ensures var key := GetStateKey(senderKey);
      (key in entries && entries[key].Record? && entries[key].timestamp.Some?
        && now - entries[key].timestamp.value == expiryMs && entries[key].interactionId.Some?)
      ==> Lookup(entries, senderKey, prompt, now, expiryMs) == (entries[key].interactionId, entries)
    ensures var key := GetStateKey(senderKey);
      (key in entries && entries[key].Garbage?)
      ==> Lookup(entries, senderKey, prompt, now, expiryMs) == (None, entries - {key})
  {
  }

  /** An id stored at `t` comes back from a lookup within the expiry window that
      does not ask for a reset, and the store is left as it was. */
  lemma SetThenGet(entries: map<string, StoredValue>, senderKey: string, id: string, t: int,
                   prompt: string, now: int, expiryMs: int)
    requires !IsNewConversationRequested(prompt) && now - t <= expiryMs
    ensures var stored := entries[GetStateKey(senderKey) := StateRecord(id, t)];
      Lookup(stored, senderKey, prompt, now, expiryMs) == (Some(id), stored)
  {
  }

  /** Whether `cleanupExpired` deletes a value: one that does not parse (the empty
      string included), or a record whose age exceeds the expiry. */
  predicate Expired(v: StoredValue, now: int, expiryMs: int) {
    match v
    case Record(_, timestamp, _) => timestamp.Some? && now - timestamp.value > expiryMs
    case _ => true
  }

  predicate Cleaned(key: string, v: StoredValue, now: int, expiryMs: int) {
    StartsWith(key, StatePrefix) && Expired(v, now, expiryMs)
  }

  /** The store after `cleanupExpired()`. */
  function Expire(entries: map<string, StoredValue>, now: int, expiryMs: int): map<string, StoredValue> {
    map k | k in entries && !Cleaned(k, entries[k], now, expiryMs) :: entries[k]
  }

  /** The cleanup keeps every key that is not an interaction state, and states that
      are still within the expiry, values unchanged. */
  lemma ExpireKeeps(entries: map<string, StoredValue>, now: int, expiryMs: int, k: string)
    requires k in entries
    ensures k in Expire(entries, now, expiryMs) <==> !(StartsWith(k, StatePrefix) && Expired(entries[k], now, expiryMs))
    ensures k in Expire(entries, now, expiryMs) ==> Expire(entries, now, expiryMs)[k] == entries[k]
  {
  }

  /** `InteractionStateManager`: the expiry and the shared property store. */
  class InteractionStateManager {
    const expiryMs: int
    const properties: Properties

    /** `new InteractionStateManager(new InteractionStateConfig(expiryHours))`. */
    constructor (expiryHours: int, properties: Properties)
      ensures this.expiryMs == ExpiryMs(expiryHours) && this.properties == properties
    {
      this.expiryMs := ExpiryMs(expiryHours);
      this.properties := properties;
    }

    /** `getInteractionId(senderKey, userPrompt)` at time `now`. */
    method GetInteractionId(senderKey: string, userPrompt: string, now: int) returns (id: Option<string>)
      modifies properties
      ensures (id, properties.entries) == Lookup(old(properties.entries), senderKey, userPrompt, now, expiryMs)
    {
      ghost var before := properties.entries;
      var reset := IsNewConversationRequested(userPrompt);
      if reset {
        ClearInteractionId(senderKey);
        return None;
      }
      var key := GetStateKey(senderKey);
      assert Lookup(before, senderKey, userPrompt, now, expiryMs) == LookupStored(before, key, now, expiryMs);
      if key !in properties.entries {
        return None;
      }
      match properties.entries[key]
      case Blank =>
        return None;
      case Record(_, timestamp, interactionId) =>
        if timestamp.Some? && now - timestamp.value > expiryMs {
          ClearInteractionId(senderKey);
          return None;
        }
        if interactionId.None? {
          ClearInteractionId(senderKey);
          return None;
        }
        return interactionId;
      case Garbage =>
        ClearInteractionId(senderKey);
        return None;
    }

    /** `setInteractionId(senderKey, interactionId)` at time `now`: overwrites this
        sender's state and nothing else. */
    method SetInteractionId(senderKey: string, interactionId: string, now: int)
      modifies properties
      ensures properties.entries == old(properties.entries)[GetStateKey(senderKey) := StateRecord(interactionId, now)]
    {
      properties.SetProperty(GetStateKey(senderKey), StateRecord(interactionId, now));
    }

    /** `clearInteractionId(senderKey)`. */
    method ClearInteractionId(senderKey: string)
      modifies properties
      ensures properties.entries == old(properties.entries) - {GetStateKey(senderKey)}
    {
      properties.DeleteProperty(GetStateKey(senderKey));
    }

    /** `cleanupExpired()` at time `now`: deletes the expired and unreadable states
        of a snapshot of the store and returns how many it deleted. */
    method CleanupExpired(now: int) returns (cleaned: nat)
      modifies properties
      ensures properties.entries == Expire(old(properties.entries), now, expiryMs)
      ensures cleaned == |old(properties.entries)| - |properties.entries|
    {
      var snapshot := properties.entries;
      var pending := snapshot.Keys;
      cleaned := 0;
      while pending != {}
        invariant pending <= snapshot.Keys
        invariant properties.entries ==
          map k | k in snapshot && !(k !in pending && Cleaned(k, snapshot[k], now, expiryMs)) :: snapshot[k]
        invariant cleaned + |properties.entries| == |snapshot|
        decreases |pending|
      {
        var key :| key in pending;
        if StartsWith(key, StatePrefix) && Expired(snapshot[key], now, expiryMs) {
          assert key in properties.entries;
          properties.DeleteProperty(key);
          cleaned := cleaned + 1;
        }
        pending := pending - {key};
      }
    }
  }

  // ---------------------------------------------------------------------------
  // simpleHash and extractSenderKey

  const Modulus: int := 0x1_0000_0000

  /** The UTF-16 code units of a character, as `charCodeAt` reads them. */
  function CodeUnits(c: char): (units: seq<int>)
    ensures forall u <- units :: 0 <= u < 0x10000
  {
    var v := c as int;
    if v < 0x10000 then [v]
    else [0xD800 + (v - 0x10000) / 0x400, 0xDC00 + (v - 0x10000) % 0x400]
  }

  /** The UTF-16 code units of a string. */
  function Utf16(s: string): (units: seq<int>)
    ensures |s| <= |units| <= 2 * |s|
    ensures forall u <- units :: 0 <= u < 0x10000
  {
    if s == [] then [] else Utf16(s[..|s| - 1]) + CodeUnits(s[|s| - 1])
  }

  /** The hash of a sequence of code units, as an unsigned 32-bit value: each step
      multiplies by 31 and adds the unit, wrapping around at 2^32. */
  function HashOf(units: seq<int>): (h: int)
    ensures 0 <= h < Modulus
  {
    if units == [] then 0 else (31 * HashOf(units[..|units| - 1]) + units[|units| - 1]) % Modulus
  }

  /** The same hash written as a polynomial: unit i weighs 31^(n-1-i). */
  function Poly(units: seq<int>): int {
    if units == [] then 0 else 31 * Poly(units[..|units| - 1]) + units[|units| - 1]
  }

  lemma ModStep(a: int, c: int)
    ensures (31 * (a % Modulus) + c) % Modulus == (31 * a + c) % Modulus
  {
    var q := a / Modulus;
    assert a == Modulus * q + a % Modulus;
    assert 31 * a + c == Modulus * (31 * q) + (31 * (a % Modulus) + c);
  }

  /** The wrapped hash is the polynomial reduced modulo 2^32. */
  lemma {:induction false} HashIsPoly(units: seq<int>)
    ensures HashOf(units) == Poly(units) % Modulus
  {
    if units != [] {
      var init := units[..|units| - 1];
      HashIsPoly(init);
      ModStep(Poly(init), units[|units| - 1]);
    }
  }

  /** The 32-bit signed value of an unsigned hash, and its absolute value. */
  function AbsSigned(h: int): (a: nat)
    requires 0 <= h < Modulus
    ensures a <= 0x8000_0000
  {
    if h < 0x8000_0000 then h else Modulus - h
  }

  /** `simpleHash(str)`, as a value. */
  function SenderHash(str: string): (key: string)
    ensures StartsWith(key, "SENDER_") && |key| > 7
  {
    "SENDER_" + NatToBase36(AbsSigned(HashOf(Utf16(str))))
  }

  /** `simpleHash(str)`: the loop over the code units keeps the hash as a 32-bit
      integer; `(hash << 5) - hash + char` is computed on the shifted value wrapped
      to 32 bits and then the whole is wrapped again. */
  method SimpleHash(str: string) returns (key: string)
    ensures key == SenderHash(str)
  {
    var units := Utf16(str);
    var hash := 0;
    var i := 0;
    while i < |units|
      invariant 0 <= i <= |units|
      invariant hash == HashOf(units[..i])
    {
      var shifted := (hash * 32) % Modulus;
      var next := (shifted - hash + units[i]) % Modulus;
      ShiftStep(hash, units[i]);
      assert units[..i + 1][..i] == units[..i];
      hash := next;
      i := i + 1;
    }
    assert units[..i] == units;
    key := "SENDER_" + NatToBase36(AbsSigned(hash));
  }

  lemma ShiftStep(h: int, c: int)
    ensures ((h * 32) % Modulus - h + c) % Modulus == (31 * h + c) % Modulus
  {
    var q := (h * 32) / Modulus;
    assert h * 32 == Modulus * q + (h * 32) % Modulus;
    assert (h * 32) % Modulus - h + c == 31 * h + c - Modulus * q;
  }

  /** `[a-zA-Z0-9\-]`. */
  predicate IsExtIdChar(c: char) {
    ('a' <= c <= 'z') || ('A' <= c <= 'Z') || ('0' <= c <= '9') || c == '-'
  }

  /** `extractSenderKey(targetUrl)`, with `decode` as `decodeURIComponent` (None
      when it throws, and then so does `extractSenderKey`): the hash of the decoded
      `adr=` value, else the `extId=` value, else "UNKNOWN". */
  function ExtractSenderKey(targetUrl: string, decode: string -> Option<string>): (r: Option<string>)
  {
    var adr := FirstParam(targetUrl, "adr=", IsValueChar);
    if adr.Some? then
      var address := decode(adr.value);
      if address.Some? then Some(SenderHash(address.value)) else None
    else
      var extId := FirstParam(targetUrl, "extId=", IsExtIdChar);
      Some(if extId.Some? then extId.value else "UNKNOWN")
  }

  /** With a reply address the key is a `SENDER_` hash, the same for every URL that
      carries the same address; without one it is the `extId` value or UNKNOWN. */
  lemma SenderKeyShape(url1: string, url2: string, decode: string -> Option<string>)
    ensures var a1 := FirstParam(url1, "adr=", IsValueChar);
      a1.Some? && decode(a1.value).Some? ==>
        ExtractSenderKey(url1, decode).Some? && StartsWith(ExtractSenderKey(url1, decode).value, "SENDER_")
    ensures var a1 := FirstParam(url1, "adr=", IsValueChar);
      var a2 := FirstParam(url2, "adr=", IsValueChar);
      a1.Some? && a2.Some? && decode(a1.value) == decode(a2.value) ==>
        ExtractSenderKey(url1, decode) == ExtractSenderKey(url2, decode)
    ensures FirstParam(url1, "adr=", IsValueChar).None? ==>
      var e := FirstParam(url1, "extId=", IsExtIdChar);
      ExtractSenderKey(url1, decode) == Some(if e.Some? then e.value else "UNKNOWN")
  {
  }
}
