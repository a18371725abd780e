/** The admin brands and manufacturers pages. The two pages are the same program over
    two resources: a searchable list and a create-or-edit modal whose submit needs a
    stored token, sends `POST` or `PUT`, and reacts to the reply's status. */
module EntryAdmin {
  import opened Options
  import opened Text
  import opened Seqs
  import Media

  /** Which page: brands or manufacturers. */
  datatype Resource = Brands | Manufacturers

  /** The resource's path segment in `API_ENDPOINTS`. */
  function PathOf(r: Resource): string
  {
    match r
    case Brands => "brands"
    case Manufacturers => "manufacturers"
  }

  /** The word of the failure alert. */
  function Noun(r: Resource): string
  {
    match r
    case Brands => "brand"
    case Manufacturers => "manufacturer"
  }

  /** A brand or manufacturer as the API lists it. */
  datatype Entry = Entry(
    id: string, name: string, description: string, slug: string, logoUrl: Option<string>,
    isPublished: bool, showOnHomepage: bool, displayOrder: int, productCount: nat,
    metaTitle: Option<string>, metaDescription: Option<string>, metaKeywords: Option<string>)

  /** The modal's fields. */
  datatype EntryForm = EntryForm(
    name: string, description: string, logoUrl: string, isPublished: bool, showOnHomepage: bool,
    displayOrder: int, metaTitle: string, metaDescription: string, metaKeywords: string)

  /** The initial state and what `resetForm` restores. */
  const EmptyForm: EntryForm := EntryForm("", "", "", true, false, 1, "", "", "")

  const LoginFirstAlert: string := "Please login first"
  const UnauthorizedAlert: string := "Unauthorized. Please login again."

  function FailureAlert(r: Resource): string
  {
    "Failed to save " + Noun(r)
  }

  /** `handleEdit`'s `setFormData`: absent optional fields become "". */
  function FormOf(e: Entry): (f: EntryForm)
    ensures f.name == e.name && f.description == e.description && f.logoUrl == OrOpt(e.logoUrl, "")
    ensures f.isPublished == e.isPublished && f.showOnHomepage == e.showOnHomepage
    ensures f.displayOrder == e.displayOrder
    ensures f.metaTitle == OrOpt(e.metaTitle, "") && f.metaDescription == OrOpt(e.metaDescription, "")
    ensures f.metaKeywords == OrOpt(e.metaKeywords, "")
  {
    EntryForm(e.name, e.description, OrOpt(e.logoUrl, ""), e.isPublished, e.showOnHomepage,
      e.displayOrder, OrOpt(e.metaTitle, ""), OrOpt(e.metaDescription, ""), OrOpt(e.metaKeywords, ""))
  }

  datatype Verb = Post | Put

  /** `{ ...formData, ...(editing && { id: editing.id }) }` */
  datatype Payload = Payload(form: EntryForm, id: Option<string>)

  datatype Request = Request(verb: Verb, url: string, authorization: string, body: Payload)

  /** What a submit does before any reply: refuse without a token, or send a request. */
  datatype Attempt = NeedsLogin | Send(request: Request)

  /** `handleSubmit` up to the `fetch`. */
  function SubmitRequest(endpoint: string, editing: Option<Entry>, form: EntryForm, token: Option<string>): (a: Attempt)
    ensures a.NeedsLogin? <==> !Truthy(token)
    ensures a.Send? ==> a.request.authorization == "Bearer " + token.value
    ensures a.Send? && editing.Some? ==>
              a.request.verb == Put && a.request.url == endpoint + "/" + editing.value.id
              && a.request.body == Payload(form, Some(editing.value.id))
    ensures a.Send? && editing.None? ==>
              a.request.verb == Post && a.request.url == endpoint && a.request.body == Payload(form, None)
  {
    if !Truthy(token) then NeedsLogin
    else
      var url := if editing.Some? then endpoint + "/" + editing.value.id else endpoint;
      Send(Request(if editing.Some? then Put else Post, url, "Bearer " + token.value,
                   Payload(form, if editing.Some? then Some(editing.value.id) else None)))
  }

  /** A reply's status, or `fetch` throwing. */
  datatype SaveReply = Status(code: nat) | Thrown

  /** `response.ok`: a 2xx status. */
  predicate IsOk(code: nat)
  {
    200 <= code <= 299
  }

  /** `response.ok || response.status === 201` */
  predicate Succeeded(reply: SaveReply)
  {
    reply.Status? && (IsOk(reply.code) || reply.code == 201)
  }

  /** The 201 test adds nothing: 201 is already OK. */
  lemma SuccessIsOk(reply: SaveReply)
    ensures Succeeded(reply) <==> reply.Status? && IsOk(reply.code)
  {
  }

  /** The alert a reply raises, if any. */
  function ReplyAlert(r: Resource, reply: SaveReply): (a: Option<string>)
    ensures a.None? <==> Succeeded(reply)
    ensures reply == Status(401) ==> a == Some(UnauthorizedAlert)
  {
    if Succeeded(reply) then None
    else if reply.Status? && reply.code == 401 then Some(UnauthorizedAlert)
    else Some(FailureAlert(r))
  }


  /** `filteredBrands` / `filteredManufacturers`: the term in the name or the description. */
  function Filtered(entries: seq<Entry>, term: string): seq<Entry>
  {
    Filter(entries, (e: Entry) => MatchesTerm(e.name, term) || MatchesTerm(e.description, term))
  }

  lemma FilteredSpec(entries: seq<Entry>, term: string)
    ensures forall e :: e in Filtered(entries, term) <==>
              e in entries && (MatchesTerm(e.name, term) || MatchesTerm(e.description, term))
    ensures IsSubsequence(Filtered(entries, term), entries)
    ensures term == "" ==> Filtered(entries, term) == entries
  {
    var p := (e: Entry) => MatchesTerm(e.name, term) || MatchesTerm(e.description, term);
    forall e | e in entries && p(e) ensures e in Filtered(entries, term) {
      FilterKeeps(entries, p, e);
    }
    FilterIsSubsequence(entries, p);
    if term == "" {
      forall e | e in entries ensures p(e) {
        EmptyTermMatches(e.name);
      }
      FilterAll(entries, p);
    }
  }

  /** The two pages talk to their own endpoints and say their own noun. */
  lemma PagesDiffer(base: string)
    ensures Media.Endpoint(base, PathOf(Brands)) == base + "/api/brands"
    ensures Media.Endpoint(base, PathOf(Manufacturers)) == base + "/api/manufacturers"
    ensures FailureAlert(Brands) == "Failed to save brand"
    ensures FailureAlert(Manufacturers) == "Failed to save manufacturer"
  {
  }

  /** The page's state. */
  class EntryPage {
    const resource: Resource
    const endpoint: string
    var entries: seq<Entry>
    var searchTerm: string
    var showModal: bool
    var editing: Option<Entry>
    var formData: EntryForm

    constructor (r: Resource, base: string)
      ensures resource == r && endpoint == Media.Endpoint(base, PathOf(r))
      ensures entries == [] && searchTerm == "" && !showModal && editing.None? && formData == EmptyForm
    {
      resource, endpoint := r, Media.Endpoint(base, PathOf(r));
      entries, searchTerm, showModal, editing, formData := [], "", false, None, EmptyForm;
    }

    /** `resetForm` */
    method ResetForm()
      modifies this
      ensures formData == EmptyForm && editing.None?
      ensures entries == old(entries) && searchTerm == old(searchTerm) && showModal == old(showModal)
    {
      formData := EmptyForm;
      editing := None;
    }

    /** The "Add" button: `resetForm(); setShowModal(true)`. */
    method OpenCreate()
      modifies this
      ensures formData == EmptyForm && editing.None? && showModal
      ensures entries == old(entries) && searchTerm == old(searchTerm)
    {
      ResetForm();
      showModal := true;
    }

    /** The modal's cancel and close buttons: `setShowModal(false); resetForm()`. */
    method CloseModal()
      modifies this
      ensures formData == EmptyForm && editing.None? && !showModal
      ensures entries == old(entries) && searchTerm == old(searchTerm)
    {
      showModal := false;
      ResetForm();
    }

    /** `handleEdit` */
    method HandleEdit(e: Entry)
      modifies this
      ensures editing == Some(e) && formData == FormOf(e) && showModal
      ensures entries == old(entries) && searchTerm == old(searchTerm)
    {
      editing := Some(e);
      formData := FormOf(e);
      showModal := true;
    }

    /** `handleSubmit` with the stored token, the save reply and the refetch reply.
        Without a token nothing is sent and nothing changes. A success refetches, closes
        the modal and resets the form; any failure alerts and leaves the modal open. */
    method HandleSubmit(token: Option<string>, reply: SaveReply, refetch: Media.ListReply<Entry>)
      returns (attempt: Attempt, alert: Option<string>)
      modifies this
      ensures attempt == SubmitRequest(endpoint, old(editing), old(formData), token)
      ensures attempt.NeedsLogin? ==> alert == Some(LoginFirstAlert)
      ensures attempt.Send? ==> alert == ReplyAlert(resource, reply)
      ensures attempt.Send? && Succeeded(reply) ==>
                entries == Media.Refetched(old(entries), refetch) && !showModal
                && formData == EmptyForm && editing.None?
      ensures !(attempt.Send? && Succeeded(reply)) ==>
                entries == old(entries) && showModal == old(showModal)
                && formData == old(formData) && editing == old(editing)
      ensures searchTerm == old(searchTerm)
    {
      attempt := SubmitRequest(endpoint, editing, formData, token);
      if attempt.NeedsLogin? {
        alert := Some(LoginFirstAlert);
        return;
      }
      alert := ReplyAlert(resource, reply);
      if Succeeded(reply) {
        entries := Media.Refetched(entries, refetch);
        showModal := false;
        ResetForm();
      }
    }
  }
}
