/** The add-product page's `handleSubmit`: validation, the GUID check on the category,
    the request body with its fallbacks, the `POST` request, and what each kind of
    reply makes the page say and do. */
module ProductSubmit {
  import opened Options
  import opened Text
  import opened Session
  import opened ProductForm
  import Login

  const MissingFieldsAlert: string := "Please fill in required fields: Product Name and SKU"
  const DefaultDescription: string := "Product description"
  const DefaultApiUrl: string := "http://localhost:5285"
  const DraftStatus: int := 1
  const PublishedStatus: int := 2

  // ---- the GUID test ----

  predicate IsHex(c: char)
  {
    '0' <= c <= '9' || 'a' <= c <= 'f' || 'A' <= c <= 'F'
  }

  /** Where the four dashes of a GUID are. */
  predicate IsDashPosition(i: int)
  {
    i == 8 || i == 13 || i == 18 || i == 23
  }

  /** `/^[0-9a-f]{8}-[0-9a-f]{4}-[0-9a-f]{4}-[0-9a-f]{4}-[0-9a-f]{12}$/i.test(s)` */
  predicate IsGuid(s: string)
  {
    |s| == 36 && forall i :: 0 <= i < 36 ==> if IsDashPosition(i) then s[i] == '-' else IsHex(s[i])
  }

  /** The test ignores case: a GUID stays one when its letters are lowercased. */
  lemma GuidIgnoresCase(s: string)
    requires IsGuid(s)
    ensures IsGuid(Lower(s))
  {
  }

  /** The `categoryId` sent: the trimmed selection when it is a GUID, null otherwise. */
  function CategoryId(categories: string): (r: Option<string>)
    ensures r.Some? ==> r.value == Trim(categories) && IsGuid(r.value)
    ensures r.None? ==> !IsGuid(Trim(categories))
  {
    if categories != "" then
      var trimmed := Trim(categories);
      if trimmed != "" && IsGuid(trimmed) then Some(trimmed) else None
    else None
  }

  /** The category select offers a placeholder and six slugs; none of them is a GUID,
      so a product created from this form never has a category. */
  const CategoryOptions: seq<string> := ["", "electronics", "fashion", "sports", "home", "books", "toys"]

  lemma CategoryOptionsNeverGuid()
    ensures forall k :: 0 <= k < |CategoryOptions| ==> CategoryId(CategoryOptions[k]).None?
  {
    forall k | 0 <= k < |CategoryOptions| ensures !IsGuid(Trim(CategoryOptions[k])) {
      var o := CategoryOptions[k];
      assert |o| < 36;
      TrimLength(o);
    }
  }

  lemma TrimLength(s: string)
    ensures |Trim(s)| <= |s|
  {
  }

  // ---- the request body ----

  /** The request body, without the fields parsed as floating point (prices, weight,
      dimensions). */
  datatype Payload = Payload(
    name: string, description: string, shortDescription: string, sku: string,
    gtin: Option<string>, manufacturerPartNumber: Option<string>, displayOrder: int,
    adminComment: Option<string>, requiresShipping: bool,
    stockQuantity: int, trackQuantity: bool, categoryId: Option<string>,
    availableStartDate: Option<string>, availableEndDate: Option<string>,
    isPublished: bool, status: int, visibleIndividually: bool, showOnHomepage: bool,
    metaTitle: Option<string>, metaDescription: Option<string>, metaKeywords: Option<string>,
    brandId: Option<string>, manufacturerId: Option<string>,
    manufacturer: Option<string>, vendor: Option<string>, tags: Option<string>,
    relatedProductIds: Option<string>, crossSellProductIds: Option<string>)

  /** `ids.length > 0 ? ids.join(',') : null` */
  function JoinedIds(ids: seq<string>): (r: Option<string>)
    ensures r.None? <==> ids == []
  {
    if |ids| > 0 then Some(Join(ids, ",")) else None
  }

  /** The server can split a joined list back into the ids, as long as no id is empty
      or holds a comma. */
  lemma JoinedIdsRoundTrip(ids: seq<string>)
    requires ids != []
    requires forall k :: 0 <= k < |ids| ==> ids[k] != "" && ',' !in ids[k]
    ensures Split(JoinedIds(ids).value, ',') == ids
  {
    SplitJoin(ids, ',');
  }

  /** `fullDescription || shortDescription || name || 'Product description'` */
  function Description(form: FormData): string
  {
    Or(form.fullDescription, Or(form.shortDescription, Or(form.name, DefaultDescription)))
  }

  /** Validation passed: name and SKU are non-empty. */
  predicate HasRequired(form: FormData)
  {
    form.name != "" && form.sku != ""
  }

  function BuildPayload(form: FormData, isDraft: bool): Payload
  {
    Payload(
      form.name, Description(form), form.shortDescription, form.sku,
      NullIfEmpty(form.gtin), NullIfEmpty(form.manufacturerPartNumber),
      ParseIntOr(form.displayOrder, 1), NullIfEmpty(form.adminComment), true,
      ParseIntOr(form.stockQuantity, 0), true, CategoryId(form.categories),
      NullIfEmpty(form.availableStartDate), NullIfEmpty(form.availableEndDate),
      if isDraft then false else form.published,
      if isDraft then DraftStatus else PublishedStatus,
      form.visibleIndividually, form.showOnHomepage,
      NullIfEmpty(form.metaTitle), NullIfEmpty(form.metaDescription), NullIfEmpty(form.metaKeywords),
      None, None,
      NullIfEmpty(form.manufacturer), NullIfEmpty(form.manufacturer), NullIfEmpty(form.productTags),
      JoinedIds(form.relatedProducts), JoinedIds(form.crossSellProducts))
  }

  /** The body's derived fields, as the form promises them. */
  lemma PayloadSpec(form: FormData, isDraft: bool)
    requires HasRequired(form)
    ensures var p := BuildPayload(form, isDraft);
            && (isDraft ==> !p.isPublished && p.status == 1)
            && (!isDraft ==> p.isPublished == form.published && p.status == 2)
            && p.description in [form.fullDescription, form.shortDescription, form.name]
            && p.description != ""
            && (p.displayOrder == 1 || p.displayOrder == ParseInt(form.displayOrder).value)
            && (p.stockQuantity == 0 || p.stockQuantity == ParseInt(form.stockQuantity).value)
            && p.vendor == p.manufacturer
            && p.requiresShipping && p.trackQuantity && p.brandId.None? && p.manufacturerId.None?
            && (p.relatedProductIds.None? <==> form.relatedProducts == [])
            && (p.crossSellProductIds.None? <==> form.crossSellProducts == [])
  {
  }

  /** The form as first shown, once named and given a SKU, is sent published with
      display order 1, no stock and no category. */
  lemma DefaultsOfFreshForm(name: string, sku: string)
    requires name != "" && sku != ""
    ensures var p := BuildPayload(InitialForm.(name := name, sku := sku), false);
            && p.isPublished && p.status == 2 && p.displayOrder == 1
            && p.stockQuantity == 0 && p.categoryId.None? && p.description == name
            && p.relatedProductIds.None? && p.crossSellProductIds.None?
  {
    ParsePrinted(1);
    assert NatToString(1) == "1";
  }

  // ---- the request ----

  /** `Authorization: Bearer ${token}`, where a missing item prints as `null`. */
  function Bearer(token: Option<string>): string
  {
    "Bearer " + (if token.Some? then token.value else "null")
  }

  /** The header as written: it reads `localStorage.getItem('token')`. */
  function AuthorizationAsWritten(b: Browser): string
  {
    Bearer(ItemText(b, "token"))
  }

  /** The header as intended: the key the login page stores the token under. */
  function Authorization(b: Browser): string
  {
    Bearer(ItemText(b, TokenKey))
  }

  /** The login page never writes the key the submit handler reads, so after a login
      from a browser without it every product request carries `Bearer null`. */
  lemma AsWrittenSendsNull(b: Browser, reply: Login.Reply, typed: string)
    requires "token" !in b.storage
    ensures AuthorizationAsWritten(ApplyAll(b, Login.Submit(reply, typed).effects)) == "Bearer null"
  {
    var es := Login.Submit(reply, typed).effects;
    assert TokenKey != "token" && EmailKey != "token" && UserDataKey != "token";
    ItemUntouched(b, es, "token");
  }

  /** With the login page's key, a successful login's token is what the request carries. */
  lemma LoginTokenIsSent(b: Browser, r: Login.LoginResult, typed: string)
    requires Login.ChosenToken(r).Some?
    ensures Authorization(ApplyAll(b, Login.Submit(Login.Ok(r), typed).effects))
         == "Bearer " + Login.ChosenToken(r).value
  {
    var es := Login.Submit(Login.Ok(r), typed).effects;
    var t := Login.ChosenToken(r).value;
    assert es[0] == SetItem(TokenKey, Plain(t));
    assert EmailKey != TokenKey && UserDataKey != TokenKey;
    ItemUntouched(Apply(b, es[0]), es[1..], TokenKey);
  }

  /** `POST ${apiUrl}/api/Products` with its headers and body. */
  datatype Request = Request(url: string, authorization: string, body: Payload)

  /** What pressing a submit button does before any reply. */
  datatype Attempt = Blocked(alert: string) | Post(request: Request)

  /** `handleSubmit(e, isDraft)` for the form, the browser and `NEXT_PUBLIC_API_URL`. */
  function Submit(form: FormData, isDraft: bool, b: Browser, apiUrl: Option<string>): (a: Attempt)
    ensures a.Blocked? <==> !HasRequired(form)
    ensures a.Blocked? ==> a.alert == MissingFieldsAlert
    ensures a.Post? ==> a.request.body == BuildPayload(form, isDraft)
    ensures a.Post? ==> a.request.url == OrOpt(apiUrl, DefaultApiUrl) + "/api/Products"
    ensures a.Post? ==> a.request.authorization == Authorization(b)
  {
    if !HasRequired(form) then Blocked(MissingFieldsAlert)
    else Post(Request(OrOpt(apiUrl, DefaultApiUrl) + "/api/Products", Authorization(b), BuildPayload(form, isDraft)))
  }

  /** A draft and a normal submit send the same body except for the two status fields. */
  lemma DraftDiffersOnlyInStatus(form: FormData, b: Browser, apiUrl: Option<string>)
    requires HasRequired(form)
    ensures Submit(form, true, b, apiUrl).request.body
         == Submit(form, false, b, apiUrl).request.body.(isPublished := false, status := DraftStatus)
  {
  }

  // ---- the reply ----

  /** How the text of a failed reply parses: JSON with `errors`, other JSON, or not JSON. */
  datatype ErrorBody =
    | ValidationErrors(entries: seq<(string, seq<string>)>)
    | JsonMessage(message: Option<string>, title: Option<string>)
    | NotJson(text: string)

  /** A reply: OK, a failure with its status and body, a failure whose text cannot be
      read, or `fetch` itself throwing. */
  datatype Reply = Created | Failed(status: nat, body: ErrorBody) | Unreadable(status: nat) | Thrown

  /** `s.indexOf(c)` for a character that occurs: the position of its first occurrence. */
  function IndexOf(s: string, c: char): (i: nat)
    requires c in s
    ensures i < |s| && s[i] == c && c !in s[..i]
  {
    if s[0] == c then 0
    else
      assert c in s[1..];
      var j := IndexOf(s[1..], c);
      assert s[..j + 1] == [s[0]] + s[1..][..j];
      j + 1
  }

  /** `s.replace(c, rep)` with a one-character pattern: only the first occurrence is
      replaced, and a string without the character is left alone. */
  function ReplaceFirst(s: string, c: char, rep: string): (r: string)
    ensures c !in s ==> r == s
    ensures c in s ==> var i := IndexOf(s, c); r == s[..i] + rep + s[i + 1..]
  {
    if s == [] then []
    else if s[0] == c then rep + s[1..]
    else
      var t := ReplaceFirst(s[1..], c, rep);
      assert c in s ==> c in s[1..] && IndexOf(s, c) == IndexOf(s[1..], c) + 1
                        && s[..IndexOf(s, c)] == [s[0]] + s[1..][..IndexOf(s[1..], c)];
      [s[0]] + t
  }

  /** `field.replace('$', '').replace('.', ' ')` */
  function FieldName(field: string): string
  {
    ReplaceFirst(ReplaceFirst(field, '$', ""), '.', " ")
  }

  /** A root-level server path `$.name` is shown as ` name`. */
  lemma FieldNameOfRootPath(name: string)
    requires '$' !in name && '.' !in name
    ensures FieldName("$." + name) == " " + name
  {
    var s := "$." + name;
    assert s[0] == '$' && IndexOf(s, '$') == 0;
    var t := ReplaceFirst(s, '$', "");
    assert t == "." + name;
    assert t[0] == '.' && IndexOf(t, '.') == 0;
  }

  /** Only the first `.` of a field path becomes a space; later ones stay. */
  lemma FieldNameFirstDotOnly(head: string, tail: string)
    requires '$' !in head && '$' !in tail && '.' !in head
    ensures FieldName(head + "." + tail) == head + " " + tail
  {
    var s := head + "." + tail;
    assert '$' !in s by {
      forall k | 0 <= k < |s| ensures s[k] != '$' {
        if k < |head| { assert s[k] == head[k]; }
        else if k > |head| { assert s[k] == tail[k - |head| - 1]; }
      }
    }
    assert s[|head|] == '.';
    assert IndexOf(s, '.') == |head|;
    assert s[..|head|] == head && s[|head| + 1..] == tail;
  }

  /** The lines `\n${fieldName}: ${messages.join(', ')}`, one per entry. */
  function ErrorLines(entries: seq<(string, seq<string>)>): string
  {
    if entries == [] then ""
    else "\n" + FieldName(entries[0].0) + ": " + Join(entries[0].1, ", ") + ErrorLines(entries[1..])
  }

  /** The alert a reply raises and where the page goes next. */
  datatype Response = Response(alert: string, navigate: Option<string>)

  function Respond(reply: Reply, isDraft: bool): (r: Response)
    ensures r.navigate.Some? <==> reply.Created?
    ensures r.navigate.Some? ==> r.navigate.value == "/admin/products"
  {
    match reply
    case Created =>
      Response(if isDraft then "Product saved as draft!" else "Product created successfully!", Some("/admin/products"))
    case Failed(status, body) =>
      (match body
       case ValidationErrors(entries) => Response("Validation errors:\n" + ErrorLines(entries), None)
       case JsonMessage(m, t) =>
         Response("Error creating product: " + OrOpt(m, OrOpt(t, "Unknown error")), None)
       case NotJson(text) =>
         Response("Error creating product: " + Or(text, "Status: " + NatToString(status)), None))
    case Unreadable(status) => Response("Error creating product: Status " + NatToString(status), None)
    case Thrown => Response("Error submitting form. Please check console for details.", None)
  }

  /** Every failure names the failure in its alert and keeps the page; a JSON reply
      without a message or title and a reply with no text both still say something. */
  lemma FailureMessages(status: nat, isDraft: bool)
    ensures Respond(Failed(status, JsonMessage(None, None)), isDraft).alert
         == "Error creating product: Unknown error"
    ensures Respond(Failed(status, NotJson("")), isDraft).alert
         == "Error creating product: Status: " + NatToString(status)
    ensures forall e :: Respond(Failed(status, ValidationErrors(e)), isDraft).navigate.None?
  {
  }
}
