/** The admin categories page: the list with its search, the parent-category choice,
    and the create-or-edit modal whose submit sends `POST` or `PUT`. */
module CategoriesAdmin {
  import opened Options
  import opened Text
  import opened Seqs
  import Media

  datatype Category = Category(
    id: string, name: string, description: string, slug: string, imageUrl: Option<string>,
    isActive: bool, sortOrder: int, productCount: nat, metaTitle: Option<string>,
    metaDescription: Option<string>, metaKeywords: Option<string>, parentCategoryId: Option<string>)

  /** The modal's fields. */
  datatype CategoryForm = CategoryForm(
    name: string, description: string, imageUrl: string, isActive: bool, sortOrder: int,
    metaTitle: string, metaDescription: string, metaKeywords: string, parentCategoryId: string)

  /** The initial state and what `resetForm` restores. */
  const EmptyForm: CategoryForm := CategoryForm("", "", "", true, 1, "", "", "", "")

  /** `handleEdit`'s `setFormData`: absent optional fields become "". */
  function FormOf(c: Category): (f: CategoryForm)
    ensures f.name == c.name && f.description == c.description
    ensures f.isActive == c.isActive && f.sortOrder == c.sortOrder
    ensures f.imageUrl == OrOpt(c.imageUrl, "") && f.parentCategoryId == OrOpt(c.parentCategoryId, "")
    ensures f.metaTitle == OrOpt(c.metaTitle, "") && f.metaDescription == OrOpt(c.metaDescription, "")
    ensures f.metaKeywords == OrOpt(c.metaKeywords, "")
  {
    CategoryForm(c.name, c.description, OrOpt(c.imageUrl, ""), c.isActive, c.sortOrder,
      OrOpt(c.metaTitle, ""), OrOpt(c.metaDescription, ""), OrOpt(c.metaKeywords, ""),
      OrOpt(c.parentCategoryId, ""))
  }

  datatype Verb = Post | Put

  /** `{ ...formData, parentCategoryId: formData.parentCategoryId || null }`, plus `id` when editing. */
  datatype Payload = Payload(form: CategoryForm, parentCategoryId: Option<string>, id: Option<string>)

  /** The request: the `Authorization` header is sent only with a truthy token. */
  datatype Request = Request(verb: Verb, url: string, authorization: Option<string>, body: Payload)

  function Authorization(token: Option<string>): (r: Option<string>)
    ensures r.Some? <==> Truthy(token)
    ensures r.Some? ==> r.value == "Bearer " + token.value
  {
    if Truthy(token) then Some("Bearer " + token.value) else None
  }

  /** `handleSubmit`'s request, for the categories endpoint, the category being edited
      (if any), the form and the stored token. */
  function SubmitRequest(endpoint: string, editing: Option<Category>, form: CategoryForm, token: Option<string>): Request
  {
    var url := if editing.Some? then endpoint + "/" + editing.value.id else endpoint;
    var body := Payload(form, NullIfEmpty(form.parentCategoryId),
                        if editing.Some? then Some(editing.value.id) else None);
    Request(if editing.Some? then Put else Post, url, Authorization(token), body)
  }

  /** Editing sends `PUT` to the category's own URL with its id in the body; creating
      sends `POST` to the collection with no id; an empty parent goes out as null. */
  lemma SubmitRequestSpec(endpoint: string, editing: Option<Category>, form: CategoryForm, token: Option<string>)
    ensures var r := SubmitRequest(endpoint, editing, form, token);
            && (editing.Some? ==>
                  r.verb == Put && r.url == endpoint + "/" + editing.value.id && r.body.id == Some(editing.value.id))
            && (editing.None? ==> r.verb == Post && r.url == endpoint && r.body.id.None?)
            && (r.body.parentCategoryId.None? <==> form.parentCategoryId == "")
            && r.body.form == form
  {
  }

  /** Loading a category for edit and saving it unchanged sends back its own fields,
      with a missing parent as null. */
  lemma EditRoundTrip(endpoint: string, c: Category, token: Option<string>)
    ensures var r := SubmitRequest(endpoint, Some(c), FormOf(c), token);
            && r.body.form.name == c.name && r.body.form.description == c.description
            && r.body.form.isActive == c.isActive && r.body.form.sortOrder == c.sortOrder
            && r.body.parentCategoryId == (if Truthy(c.parentCategoryId) then c.parentCategoryId else None)
            && r.body.id == Some(c.id)
  {
  }

  /** `alert(`Failed to ${editing ? 'update' : 'create'} category`)` */
  function FailureAlert(editing: Option<Category>): string
  {
    if editing.Some? then "Failed to update category" else "Failed to create category"
  }

  /** The three ways a save can end: an OK reply, another reply, or an exception. */
  datatype SaveReply = Saved | Rejected | Thrown


  /** `getParentCategoryOptions`: every category but the one being edited. */
  function ParentOptions(categories: seq<Category>, editing: Option<Category>): seq<Category>
  {
    Filter(categories, (c: Category) => !(editing.Some? && c.id == editing.value.id))
  }

  /** Only the edited category is excluded; with none being edited every category is offered. */
  lemma ParentOptionsSpec(categories: seq<Category>, editing: Option<Category>)
    ensures forall c :: c in ParentOptions(categories, editing) <==>
              c in categories && !(editing.Some? && c.id == editing.value.id)
    ensures editing.None? ==> ParentOptions(categories, editing) == categories
  {
    var p := (c: Category) => !(editing.Some? && c.id == editing.value.id);
    forall c | c in categories && p(c) ensures c in ParentOptions(categories, editing) {
      FilterKeeps(categories, p, c);
    }
    if editing.None? {
      FilterAll(categories, p);
    }
  }

  /** Descendants are not excluded: a child of the edited category is offered as its parent. */
  lemma ChildIsOfferedAsParent(categories: seq<Category>, edited: Category, child: Category)
    requires child in categories && child.parentCategoryId == Some(edited.id) && child.id != edited.id
    ensures child in ParentOptions(categories, Some(edited))
  {
    ParentOptionsSpec(categories, Some(edited));
  }

  /** `filteredCategories`: a case-insensitive substring match on the name. */
  function Filtered(categories: seq<Category>, term: string): seq<Category>
  {
    Filter(categories, (c: Category) => MatchesTerm(c.name, term))
  }

  lemma FilteredSpec(categories: seq<Category>, term: string)
    ensures forall c :: c in Filtered(categories, term) <==> c in categories && MatchesTerm(c.name, term)
    ensures IsSubsequence(Filtered(categories, term), categories)
    ensures term == "" ==> Filtered(categories, term) == categories
  {
    var p := (c: Category) => MatchesTerm(c.name, term);
    forall c | c in categories && p(c) ensures c in Filtered(categories, term) {
      FilterKeeps(categories, p, c);
    }
    FilterIsSubsequence(categories, p);
    if term == "" {
      forall c | c in categories ensures p(c) {
        EmptyTermMatches(c.name);
      }
      FilterAll(categories, p);
    }
  }

  /** The page's state. */
  class CategoriesPage {
    const endpoint: string
    var categories: seq<Category>
    var searchTerm: string
    var showModal: bool
    var editing: Option<Category>
    var formData: CategoryForm

    /** `API_ENDPOINTS.categories` for the configured base address. */
    constructor (base: string)
      ensures endpoint == Media.Endpoint(base, "categories")
      ensures categories == [] && searchTerm == "" && !showModal && editing.None? && formData == EmptyForm
    {
      endpoint := Media.Endpoint(base, "categories");
      categories, searchTerm, showModal, editing, formData := [], "", false, None, EmptyForm;
    }

    /** `resetForm` */
    method ResetForm()
      modifies this
      ensures formData == EmptyForm && editing.None?
      ensures categories == old(categories) && searchTerm == old(searchTerm) && showModal == old(showModal)
    {
      formData := EmptyForm;
      editing := None;
    }

    /** The "Add Category" button: `resetForm(); setShowModal(true)`. */
    method OpenCreate()
      modifies this
      ensures formData == EmptyForm && editing.None? && showModal
      ensures categories == old(categories) && searchTerm == old(searchTerm)
    {
      ResetForm();
      showModal := true;
    }

    /** The modal's cancel and close buttons: `setShowModal(false); resetForm()`. */
    method CloseModal()
      modifies this
      ensures formData == EmptyForm && editing.None? && !showModal
      ensures categories == old(categories) && searchTerm == old(searchTerm)
    {
      showModal := false;
      ResetForm();
    }

    /** `handleEdit` */
    method HandleEdit(c: Category)
      modifies this
      ensures editing == Some(c) && formData == FormOf(c) && showModal
      ensures categories == old(categories) && searchTerm == old(searchTerm)
    {
      editing := Some(c);
      formData := FormOf(c);
      showModal := true;
    }

    /** `handleSubmit` with the stored token, the save reply and the refetch reply: a
        saved category refetches the list, closes the modal and resets the form; a
        failure alerts and leaves everything as it was. */
    method HandleSubmit(token: Option<string>, reply: SaveReply, refetch: Media.ListReply<Category>)
      returns (request: Request, alert: Option<string>)
      modifies this
      ensures request == SubmitRequest(endpoint, old(editing), old(formData), token)
      ensures reply.Saved? ==> alert.None? && categories == Media.Refetched(old(categories), refetch)
                               && !showModal && formData == EmptyForm && editing.None?
      ensures !reply.Saved? ==> alert == Some(FailureAlert(old(editing)))
                                && categories == old(categories) && showModal == old(showModal)
                                && formData == old(formData) && editing == old(editing)
      ensures searchTerm == old(searchTerm)
    {
      request := SubmitRequest(endpoint, editing, formData, token);
      if reply.Saved? {
        categories := Media.Refetched(categories, refetch);
        showModal := false;
        ResetForm();
        alert := None;
      } else {
        alert := Some(FailureAlert(editing));
      }
    }
  }
}
