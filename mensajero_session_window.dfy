/**
 * The courier's 24-hour session window (`mensajerosSession`): the start of the window is kept in
 * one `localStorage` entry as an ISO date; it is taken from the stored entry when there is one,
 * and otherwise from the Supabase session's dates or the clock, and then stored.
 *
 * A date text is modelled with what `Date.parse` reads in it (`DateText`); the clock
 * `Date.now()` is the parameter `now`.
 */
module MensajeroSessionWindow {
  import opened JsText

  const StartedAtKey := "mensajero_session_started_at"
  /** Twenty-four hours in milliseconds. */
  const MaxSessionMs := 24 * 60 * 60 * 1000

  /** A date text and `Date.parse` of it: the milliseconds, or None for NaN. */
  datatype DateText = DateText(text: string, parsed: Option<int>)

  /** `new Date(ms).toISOString()`, which `Date.parse` reads back as `ms`. */
  function IsoText(ms: int, iso: string): DateText
  {
    DateText(iso, Some(ms))
  }

  /** The user dates of a Supabase session; None is a null or absent field. */
  datatype SessionUser = SessionUser(lastSignInAt: Option<DateText>, createdAt: Option<DateText>)

  /** `toMs`: null for a missing or empty text and for one `Date.parse` cannot read. */
  function ToMs(value: Option<DateText>): (r: Option<int>)
    ensures value.None? || value.value.text == "" || value.value.parsed.None? ==> r.None?
    ensures r.Some? ==> r == value.value.parsed
  {
    if value.None? || value.value.text == "" then None else value.value.parsed
  }

  /** `getStoredStartMs()`: nothing outside a browser, else `toMs` of the stored entry. */
  function StoredStart(browser: bool, storage: map<string, DateText>): Option<int>
  {
    if !browser || StartedAtKey !in storage then None else ToMs(Some(storage[StartedAtKey]))
  }

  /** `toMs(last_sign_in_at) ?? toMs(created_at) ?? Date.now()`. */
  function StartFromSession(user: SessionUser, now: int): (start: int)
    ensures ToMs(user.lastSignInAt).Some? ==> start == ToMs(user.lastSignInAt).value
    ensures ToMs(user.lastSignInAt).None? && ToMs(user.createdAt).Some? ==> start == ToMs(user.createdAt).value
    ensures ToMs(user.lastSignInAt).None? && ToMs(user.createdAt).None? ==> start == now
  {
    match ToMs(user.lastSignInAt)
    case Some(ms) => ms
    case None =>
      match ToMs(user.createdAt)
      case Some(ms) => ms
      case None => now
  }

  /**
   * `ensureMensajeroSessionWindow` as a function of the store: the stored start when it is
   * truthy (present and not 0), else the start from the session, written back as `iso`.
   */
  function Ensure(browser: bool, storage: map<string, DateText>, user: SessionUser, now: int, iso: string)
    : (r: (int, map<string, DateText>))
    ensures StoredStart(browser, storage).Some? && StoredStart(browser, storage).value != 0 ==>
      r == (StoredStart(browser, storage).value, storage)
    ensures StoredStart(browser, storage).None? || StoredStart(browser, storage).value == 0 ==>
      r.0 == StartFromSession(user, now)
      && r.1 == if browser then storage[StartedAtKey := IsoText(r.0, iso)] else storage
  {
    var stored := StoredStart(browser, storage);
    if stored.Some? && stored.value != 0 then (stored.value, storage)
    else
      var start := StartFromSession(user, now);
      (start, if browser then storage[StartedAtKey := IsoText(start, iso)] else storage)
  }

  /**
   * In a browser, a second call returns the first call's start and writes nothing, whatever the
   * session and the clock say then, unless that start was 0 (falsy, so recomputed). `iso`, an
   * ISO date, is never empty.
   */
  lemma EnsureIsIdempotent(
    storage: map<string, DateText>, user: SessionUser, now: int, iso: string,
    user2: SessionUser, now2: int, iso2: string)
    requires iso != "" && Ensure(true, storage, user, now, iso).0 != 0
    ensures var (start, storage1) := Ensure(true, storage, user, now, iso);
      Ensure(true, storage1, user2, now2, iso2) == (start, storage1)
  {
    var (start, storage1) := Ensure(true, storage, user, now, iso);
    if !(StoredStart(true, storage).Some? && StoredStart(true, storage).value != 0) {
      assert storage1[StartedAtKey] == IsoText(start, iso);
      assert StoredStart(true, storage1) == Some(start);
    }
  }

  /** A stored start of 0 ms is falsy: the window is recomputed from the session. */
  lemma StoredZeroIsRecomputed(storage: map<string, DateText>, user: SessionUser, now: int, iso: string, zeroText: string)
    requires zeroText != ""
    ensures Ensure(true, storage[StartedAtKey := DateText(zeroText, Some(0))], user, now, iso).0
      == StartFromSession(user, now)
  {
  }

  /** After the window is cleared, the next call recomputes it from the session. */
  lemma ClearedWindowIsRecomputed(storage: map<string, DateText>, user: SessionUser, now: int, iso: string)
    ensures Ensure(true, storage - {StartedAtKey}, user, now, iso)
      == (StartFromSession(user, now), storage[StartedAtKey := IsoText(StartFromSession(user, now), iso)])
  {
    assert (storage - {StartedAtKey})[StartedAtKey := IsoText(StartFromSession(user, now), iso)]
      == storage[StartedAtKey := IsoText(StartFromSession(user, now), iso)];
  }

  /** Outside a browser nothing is kept: every call starts over from the session. */
  lemma OutsideBrowserNothingIsKept(storage: map<string, DateText>, user: SessionUser, now: int, iso: string)
    ensures Ensure(false, storage, user, now, iso) == (StartFromSession(user, now), storage)
  {
  }

  /** `isMensajeroSessionExpired`: more than 24 hours since the start; exactly 24 hours is not. */
  predicate Expired(start: int, now: int)
  {
    now - start > MaxSessionMs
  }

  lemma ExpiryBoundIsStrict(start: int)
    ensures !Expired(start, start + MaxSessionMs) && Expired(start, start + MaxSessionMs + 1)
  {
  }

  /** The window's store. */
  class SessionWindowStore {
    /** `typeof window !== 'undefined'`. */
    const browser: bool
    /** `window.localStorage`. */
    var storage: map<string, DateText>

    constructor (browser: bool, storage: map<string, DateText>)
      ensures this.browser == browser && this.storage == storage
    {
      this.browser := browser;
      this.storage := storage;
    }

    /** `clearMensajeroSessionWindow()`: in a browser, the entry is removed. */
    method ClearMensajeroSessionWindow()
      modifies this
      ensures storage == if browser then old(storage) - {StartedAtKey} else old(storage)
      ensures StoredStart(browser, storage).None?
    {
      if !browser {
        return;
      }
      storage := storage - {StartedAtKey};
    }

    /**
     * `ensureMensajeroSessionWindow(session)`; `iso` is `new Date(start).toISOString()` of the
     * start it computes.
     */
    method EnsureMensajeroSessionWindow(user: SessionUser, now: int, iso: string) returns (start: int)
      modifies this
      ensures (start, storage) == Ensure(browser, old(storage), user, now, iso)
    {
      var stored := StoredStart(browser, storage);
      if stored.Some? && stored.value != 0 {
        return stored.value;
      }
      start := StartFromSession(user, now);
      if browser {
        storage := storage[StartedAtKey := IsoText(start, iso)];
      }
    }

    /** `isMensajeroSessionExpired(session)`: ensures the window, then compares with the clock. */
    method IsMensajeroSessionExpired(user: SessionUser, now: int, iso: string) returns (expired: bool)
      modifies this
      ensures storage == Ensure(browser, old(storage), user, now, iso).1
      ensures expired <==> Expired(Ensure(browser, old(storage), user, now, iso).0, now)
    {
      var start := EnsureMensajeroSessionWindow(user, now, iso);
      expired := Expired(start, now);
    }
  }
}
