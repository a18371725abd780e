/** The browser state that the login page, the admin layout and the middleware
    share: `localStorage`, the cookie jar, and where the window is sent. The
    pages change it only through the effects below, applied in order. */
module Session {
  import opened Options
  import RouteGuard

  const TokenKey: string := "authToken"
  const EmailKey: string := "userEmail"
  const UserDataKey: string := "userData"

  /** The profile the login page stores under `userData`: exactly these four fields. */
  datatype UserRecord = UserRecord(
    id: Option<string>, email: Option<string>, firstName: Option<string>, lastName: Option<string>)

  /** A `localStorage` value: the JSON text of a user record, or any other text
      (which, read back as `userData`, does not parse to an object). */
  datatype Stored = Plain(text: string) | UserJson(user: UserRecord)

  datatype Cookie = Cookie(value: string, path: string, maxAge: nat)

  /** One write to the browser. `WriteCookie` is an assignment
      `document.cookie = "name=value; path=...; max-age=..."`. */
  datatype Effect =
    | SetItem(key: string, item: Stored)
    | RemoveItem(key: string)
    | WriteCookie(name: string, value: string, path: string, maxAge: int)
    | Navigate(url: string)

  datatype Browser = Browser(storage: map<string, Stored>, cookies: map<string, Cookie>, location: string)

  /** A cookie written with a `max-age` of zero or less expires at once. */
  function Apply(b: Browser, e: Effect): (r: Browser)
    ensures e.SetItem? ==> r.storage == b.storage[e.key := e.item]
    ensures e.RemoveItem? ==> r.storage.Keys == b.storage.Keys - {e.key}
  {
    match e
    case SetItem(k, v) => b.(storage := b.storage[k := v])
    case RemoveItem(k) => b.(storage := b.storage - {k})
    case WriteCookie(n, v, p, age) =>
      if age <= 0 then b.(cookies := b.cookies - {n})
      else b.(cookies := b.cookies[n := Cookie(v, p, age)])
    case Navigate(url) => b.(location := url)
  }

  function ApplyAll(b: Browser, es: seq<Effect>): Browser
    decreases |es|
  {
    if es == [] then b else ApplyAll(Apply(b, es[0]), es[1..])
  }

  /** `request.cookies.get(name)?.value` */
  function CookieValue(b: Browser, name: string): Option<string>
  {
    if name in b.cookies then Some(b.cookies[name].value) else None
  }

  /** The session state the middleware sees: a truthy `authToken` cookie. */
  predicate SignedIn(b: Browser)
  {
    RouteGuard.HasToken(CookieValue(b, TokenKey))
  }

  /** `localStorage.getItem(key)` as text (`null` is `None`). A user record reads back
      as its JSON text, written here as `{...}`: the pages never look past its first
      character, and it is never empty. */
  function ItemText(b: Browser, key: string): Option<string>
  {
    if key in b.storage then
      match b.storage[key]
      case Plain(t) => Some(t)
      case UserJson(_) => Some("{...}")
    else None
  }

  lemma {:induction false} ApplyAllAppend(b: Browser, es: seq<Effect>, fs: seq<Effect>)
    ensures ApplyAll(b, es + fs) == ApplyAll(ApplyAll(b, es), fs)
    decreases |es|
  {
    if es == [] {
      assert es + fs == fs;
    } else {
      assert (es + fs)[0] == es[0];
      assert (es + fs)[1..] == es[1..] + fs;
      ApplyAllAppend(Apply(b, es[0]), es[1..], fs);
    }
  }

  lemma ApplyAllSnoc(b: Browser, es: seq<Effect>, e: Effect)
    ensures ApplyAll(b, es + [e]) == Apply(ApplyAll(b, es), e)
  {
    ApplyAllAppend(b, es, [e]);
    assert ApplyAll(ApplyAll(b, es), [e]) == ApplyAll(Apply(ApplyAll(b, es), e), []);
  }

  /** The cookie jar is changed by cookie writes only. */
  lemma {:induction false} CookiesOnlyByCookieWrites(b: Browser, es: seq<Effect>)
    requires forall k :: 0 <= k < |es| ==> !es[k].WriteCookie?
    ensures ApplyAll(b, es).cookies == b.cookies
    decreases |es|
  {
    if es != [] {
      CookiesOnlyByCookieWrites(Apply(b, es[0]), es[1..]);
    }
  }

  /** Writes after the last write of a cookie do not change what the middleware reads. */
  lemma {:induction false} LastCookieWriteWins(b: Browser, es: seq<Effect>, fs: seq<Effect>)
    requires forall k :: 0 <= k < |fs| ==> !fs[k].WriteCookie?
    ensures CookieValue(ApplyAll(b, es + fs), TokenKey) == CookieValue(ApplyAll(b, es), TokenKey)
  {
    ApplyAllAppend(b, es, fs);
    CookiesOnlyByCookieWrites(ApplyAll(b, es), fs);
  }

  /** Effects that neither set nor remove a key leave what `getItem` reads there unchanged. */
  lemma {:induction false} ItemUntouched(b: Browser, es: seq<Effect>, k: string)
    requires forall i :: 0 <= i < |es| ==> !(es[i].SetItem? && es[i].key == k)
    requires forall i :: 0 <= i < |es| ==> !(es[i].RemoveItem? && es[i].key == k)
    ensures ItemText(ApplyAll(b, es), k) == ItemText(b, k)
    decreases |es|
  {
    if es != [] {
      ItemUntouched(Apply(b, es[0]), es[1..], k);
    }
  }
}
