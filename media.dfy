/** The API base address and the image-URL resolution the admin pages share:
    an absolute URL is kept, a relative one is put under the API's base. */
module Media {
  import opened Options
  import opened Text

  const DefaultBase: string := "http://localhost:5285"

  /** `process.env.NEXT_PUBLIC_API_URL || 'http://localhost:5285'` */
  function ApiBaseUrl(env: Option<string>): (r: string)
    ensures r != ""
  {
    OrOpt(env, DefaultBase)
  }

  /** `${API_BASE_URL}/api/<name>` */
  function Endpoint(base: string, name: string): string
  {
    base + "/api/" + name
  }

  /** `getImageUrl`: nothing gives "", an `http…` URL is kept, anything else is
      appended to the base. */
  function ImageUrl(base: string, url: Option<string>): (r: string)
    ensures !Truthy(url) ==> r == ""
    ensures Truthy(url) && StartsWith(url.value, "http") ==> r == url.value
    ensures Truthy(url) && !StartsWith(url.value, "http") ==> r == base + url.value
  {
    if !Truthy(url) then ""
    else if StartsWith(url.value, "http") then url.value
    else base + url.value
  }

  /** What an admin page's list fetch gets: an OK reply with its `data`, or nothing
      usable (a failed status or an exception). */
  datatype ListReply<T> = Listed(data: Option<seq<T>>) | ListFailed

  /** `setItems(result.data || [])`, called only after an OK reply: a failure keeps the
      list, an OK reply replaces it with its data, or empties it when there is none. */
  function Refetched<T>(current: seq<T>, reply: ListReply<T>): (r: seq<T>)
    ensures reply.ListFailed? ==> r == current
    ensures reply.Listed? && reply.data.None? ==> r == []
    ensures reply.Listed? && reply.data.Some? ==> r == reply.data.value
  {
    match reply
    case Listed(data) => if data.Some? then data.value else []
    case ListFailed => current
  }

  /** Under an `http…` base every resolved URL is absolute, so resolving it again
      changes nothing. */
  lemma ImageUrlIdempotent(base: string, url: Option<string>)
    requires StartsWith(base, "http")
    ensures ImageUrl(base, Some(ImageUrl(base, url))) == ImageUrl(base, url)
  {
    var r := ImageUrl(base, url);
    if Truthy(url) && !StartsWith(url.value, "http") {
      assert r[..4] == base[..4];
    }
  }

  /** The default base is absolute. */
  lemma DefaultBaseIsAbsolute()
    ensures StartsWith(DefaultBase, "http")
  {
  }
}
