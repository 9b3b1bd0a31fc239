/**
 * The admin panel's session (`adminAuth`): one `sessionStorage` entry holding the JSON record
 * `{"loggedAt": <ms>}`, valid for eight hours. The store is the class `AdminSessionStore`; the
 * browser's presence is its constant `browser` and `Date.now()` is the parameter `now`.
 */
module AdminSession {
  import opened JsText

  const AdminSessionKey := "onus_admin_auth"
  /** Eight hours in milliseconds. */
  const AdminSessionTtlMs := 8 * 60 * 60 * 1000

  const RecordHead := "{\"loggedAt\":"
  const RecordTail := "}"

  /** `JSON.stringify({ loggedAt })` for an integer number of milliseconds. */
  function SessionJson(loggedAt: int): string
  {
    RecordHead + IntToString(loggedAt) + RecordTail
  }

  /** A JSON integer's digits: `0`, or a non-empty digit run that does not start with `0`. */
  predicate IsJsonDigits(d: string)
  {
    d != [] && AllDigits(d) && (d[0] == '0' ==> |d| == 1)
  }

  /** A JSON integer: an optional minus sign followed by its digits, so `007` and `-01` are not. */
  predicate IsIntegerText(t: string)
  {
    if StartsWith(t, "-") then IsJsonDigits(t[1..]) else IsJsonDigits(t)
  }

  function IntegerValue(t: string): int
    requires IsIntegerText(t)
  {
    if StartsWith(t, "-") then -(DigitsValue(t[1..]) as int) else DigitsValue(t)
  }

  /**
   * `JSON.parse(raw).loggedAt` for the records `setAdminSession` writes: the JSON integer between
   * the record's head and tail, and None for any other text, including a number with a leading zero.
   */
  function ReadLoggedAt(raw: string): (r: Option<int>)
    ensures r.Some? ==> StartsWith(raw, RecordHead) && EndsWith(raw, RecordTail)
  {
    if |raw| >= |RecordHead| + |RecordTail| && StartsWith(raw, RecordHead) && EndsWith(raw, RecordTail) then
      var body := raw[|RecordHead|..|raw| - |RecordTail|];
      if IsIntegerText(body) then Some(IntegerValue(body)) else None
    else None
  }

  /** The record written for `t` reads back as `t`. */
  lemma ReadSessionJson(t: int)
    ensures ReadLoggedAt(SessionJson(t)) == Some(t)
  {
    var s := SessionJson(t);
    var n := IntToString(t);
    assert s[..|RecordHead|] == RecordHead;
    assert s[|s| - |RecordTail|..] == RecordTail;
    assert s[|RecordHead|..|s| - |RecordTail|] == n;
    var digits := NatToString(if t < 0 then -t else t);
    NatToStringValue(if t < 0 then -t else t);
    if t < 0 {
      assert n[1..] == digits;
    } else {
      assert !StartsWith(n, "-") by { assert IsDigit(n[0]); }
    }
  }

  /**
   * `JSON.parse` refuses a number with a leading zero, so a record such as `{"loggedAt":007}` or
   * `{"loggedAt":-01}` is unreadable.
   */
  lemma LeadingZeroIsUnreadable(sign: string, d: string)
    requires sign == "" || sign == "-"
    requires |d| > 1 && d[0] == '0'
    ensures ReadLoggedAt(RecordHead + sign + d + RecordTail).None?
  {
    var raw := RecordHead + sign + d + RecordTail;
    if |raw| >= |RecordHead| + |RecordTail| && StartsWith(raw, RecordHead) && EndsWith(raw, RecordTail) {
      var body := raw[|RecordHead|..|raw| - |RecordTail|];
      assert body == sign + d;
      if sign == "-" {
        assert body[1..] == d;
      } else {
        assert body == d && body[..1] == "0";
      }
    }
  }

  /**
   * `isAdminSessionActive()`: only in a browser, with a non-empty stored record whose `loggedAt`
   * is present and not 0, and fewer than eight hours old.
   */
  predicate IsActiveIn(browser: bool, storage: map<string, string>, now: int)
  {
    browser && AdminSessionKey in storage && storage[AdminSessionKey] != ""
    && match ReadLoggedAt(storage[AdminSessionKey])
       case None => false
       case Some(loggedAt) => loggedAt != 0 && now - loggedAt < AdminSessionTtlMs
  }

  /** A record written at `loggedAt` (not 0) is active exactly while less than eight hours old. */
  lemma ActiveIffWithinTtl(storage: map<string, string>, loggedAt: int, now: int)
    requires loggedAt != 0
    ensures IsActiveIn(true, storage[AdminSessionKey := SessionJson(loggedAt)], now)
      <==> now - loggedAt < AdminSessionTtlMs
  {
    ReadSessionJson(loggedAt);
  }

  /** The bound is strict: at exactly eight hours the session is over. */
  lemma ExpiredAtExactlyTtl(storage: map<string, string>, loggedAt: int)
    requires loggedAt != 0
    ensures !IsActiveIn(true, storage[AdminSessionKey := SessionJson(loggedAt)], loggedAt + AdminSessionTtlMs)
  {
    ReadSessionJson(loggedAt);
  }

  /** A record whose `loggedAt` is 0 is falsy and never active. */
  lemma ZeroLoggedAtIsInactive(browser: bool, storage: map<string, string>, now: int)
    ensures !IsActiveIn(browser, storage[AdminSessionKey := SessionJson(0)], now)
  {
    ReadSessionJson(0);
  }

  /**
   * A record this model cannot read, one that does not open with `{"loggedAt":`, is never active.
   * (`JSON.parse` also reads spaced or reordered records; the model reads only the written form.)
   */
  lemma UnreadableRecordIsInactive(browser: bool, storage: map<string, string>, now: int)
    requires AdminSessionKey in storage && !StartsWith(storage[AdminSessionKey], RecordHead)
    ensures !IsActiveIn(browser, storage, now)
  {
  }

  /** The store and its one entry. */
  class AdminSessionStore {
    /** `typeof window !== 'undefined'`. */
    const browser: bool
    /** `window.sessionStorage`. */
    var storage: map<string, string>

    constructor (browser: bool, storage: map<string, string>)
      ensures this.browser == browser && this.storage == storage
    {
      this.browser := browser;
      this.storage := storage;
    }

    /** `setAdminSession()`: in a browser, the record for `now` is written under the key. */
    method SetAdminSession(now: int)
      modifies this
      ensures storage == if browser then old(storage)[AdminSessionKey := SessionJson(now)] else old(storage)
      ensures browser && now != 0 ==> IsAdminSessionActive(now)
      ensures !browser ==> !IsAdminSessionActive(now)
    {
      if !browser {
        return;
      }
      storage := storage[AdminSessionKey := SessionJson(now)];
      ReadSessionJson(now);
    }

    /** `clearAdminSession()`: in a browser, the key is removed; afterwards nothing is active. */
    method ClearAdminSession()
      modifies this
      ensures storage == if browser then old(storage) - {AdminSessionKey} else old(storage)
      ensures forall now :: !IsAdminSessionActive(now)
    {
      if !browser {
        return;
      }
      storage := storage - {AdminSessionKey};
    }

    /** `isAdminSessionActive()` at time `now`. */
    predicate IsAdminSessionActive(now: int)
      reads this
    {
      IsActiveIn(browser, storage, now)
    }
  }
}
