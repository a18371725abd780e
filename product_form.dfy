/** The add-product page's form state and the list editors around it: related and
    cross-sell product ids, attributes and their values, images, video URLs and
    specifications. Each handler computes the next list by spread, `filter` or `map`
    (the functions below) and replaces the state with it (the methods of `AddProductPage`). */
module ProductForm {
  import opened Options
  import opened Text
  import opened Seqs

  datatype Attribute = Attribute(id: string, name: string, values: seq<string>)
  datatype ProductImage = ProductImage(id: string, url: string, altText: string, displayOrder: int)
  datatype Specification = Specification(id: string, name: string, value: string, displayOrder: int)

  /** An entry of the page's fixed product catalogue for the related/cross-sell pickers. */
  datatype Listed = Listed(id: string, name: string, sku: string, price: string)

  const AvailableProducts: seq<Listed> := [
    Listed("1", "Wireless Headphones", "WH-001", "$299"),
    Listed("2", "Smart Watch Pro", "SW-002", "$399"),
    Listed("3", "Laptop Stand", "LS-003", "$49"),
    Listed("4", "USB-C Hub", "UCH-004", "$79"),
    Listed("5", "Mechanical Keyboard", "MK-005", "$149"),
    Listed("6", "Wireless Mouse", "WM-006", "$59"),
    Listed("7", "Monitor 27\"", "MON-007", "$349"),
    Listed("8", "Webcam HD", "WC-008", "$89")
  ]

  /** The part of `formData` that the submit handler and the list editors read. */
  datatype FormData = FormData(
    name: string, shortDescription: string, fullDescription: string, sku: string,
    categories: string, manufacturer: string, published: bool, productType: string,
    visibleIndividually: bool, showOnHomepage: bool, displayOrder: string,
    productTags: string, gtin: string, manufacturerPartNumber: string, adminComment: string,
    relatedProducts: seq<string>, crossSellProducts: seq<string>,
    productImages: seq<ProductImage>, videoUrls: seq<string>, specifications: seq<Specification>,
    stockQuantity: string, availableStartDate: string, availableEndDate: string,
    metaTitle: string, metaKeywords: string, metaDescription: string)

  /** The `useState` initial value. */
  const InitialForm: FormData := FormData(
    "", "", "", "", "", "", true, "simple", true, false, "1", "", "", "", "",
    [], [], [], [], [], "", "", "", "", "", "")

  // ---- related and cross-sell ids ----

  /** `ids.includes(id) ? ids : [...ids, id]` */
  function AddId(ids: seq<string>, id: string): (r: seq<string>)
    ensures forall x :: x in r <==> x in ids || x == id
    ensures |ids| <= |r| && r[..|ids|] == ids
    ensures NoDup(ids) ==> NoDup(r)
  {
    if id in ids then ids else ids + [id]
  }

  /** `ids.filter(x => x !== id)` */
  function RemoveId(ids: seq<string>, id: string): (r: seq<string>)
  {
    Filter(ids, (x: string) => x != id)
  }

  /** Removal deletes exactly that id, keeps the others in their relative order and
      keeps the list duplicate-free. */
  lemma RemoveIdSpec(ids: seq<string>, id: string)
    ensures forall x :: x in RemoveId(ids, id) <==> x in ids && x != id
    ensures IsSubsequence(RemoveId(ids, id), ids)
    ensures NoDup(ids) ==> NoDup(RemoveId(ids, id))
  {
    var p := (x: string) => x != id;
    forall x | x in ids && x != id ensures x in RemoveId(ids, id) {
      FilterKeeps(ids, p, x);
    }
    FilterIsSubsequence(ids, p);
    if NoDup(ids) {
      FilterNoDup(ids, p);
    }
  }

  /** Adding an absent id and removing it again gives back the list. */
  lemma AddThenRemove(ids: seq<string>, id: string)
    requires id !in ids
    ensures RemoveId(AddId(ids, id), id) == ids
  {
    var p := (x: string) => x != id;
    FilterAppend(ids, [id], p);
    FilterAll(ids, p);
    assert Filter([id], p) == [];
  }

  /** A picker's list: the entries whose name or SKU contains the search term,
      ignoring case, in catalogue order. */
  function Matching(catalogue: seq<Listed>, term: string): seq<Listed>
  {
    Filter(catalogue, (p: Listed) => MatchesTerm(p.name, term) || MatchesTerm(p.sku, term))
  }

  /** `filteredProducts` and `filteredProductsCross` over the fixed catalogue. */
  function FilteredProducts(term: string): seq<Listed>
  {
    Matching(AvailableProducts, term)
  }

  lemma MatchingSpec(catalogue: seq<Listed>, term: string)
    ensures forall p :: p in Matching(catalogue, term) <==>
              p in catalogue && (MatchesTerm(p.name, term) || MatchesTerm(p.sku, term))
    ensures IsSubsequence(Matching(catalogue, term), catalogue)
    ensures term == "" ==> Matching(catalogue, term) == catalogue
  {
    var q := (p: Listed) => MatchesTerm(p.name, term) || MatchesTerm(p.sku, term);
    forall p | p in catalogue && q(p) ensures p in Matching(catalogue, term) {
      FilterKeeps(catalogue, q, p);
    }
    FilterIsSubsequence(catalogue, q);
    if term == "" {
      forall p | p in catalogue ensures q(p) {
        EmptyTermMatches(p.name);
      }
      FilterAll(catalogue, q);
    }
  }

  // ---- JavaScript array assignment ----

  /** `const t = [...s]; t[i] = v`: an index inside the list replaces that element; one
      at or past its end lengthens the list to `i + 1`, the skipped slots holding holes
      (written `""`: a hole and the empty string are both falsy); a negative index sets
      a property, not an element, and leaves the elements alone. */
  function SetAt(s: seq<string>, i: int, v: string): (r: seq<string>)
    ensures i < 0 ==> r == s
    ensures 0 <= i ==> |r| == (if i < |s| then |s| else i + 1) && r[i] == v
    ensures 0 <= i ==> forall k :: 0 <= k < |r| && k != i ==> r[k] == (if k < |s| then s[k] else "")
  {
    if i < 0 then s
    else if i < |s| then s[i := v]
    else s + seq(i - |s|, _ => "") + [v]
  }

  // ---- attributes ----

  /** `{ id: Date.now().toString(), name: '', values: [''] }` */
  function NewAttribute(now: nat): Attribute
  {
    Attribute(NatToString(now), "", [""])
  }

  function RemoveAttribute(attrs: seq<Attribute>, id: string): seq<Attribute>
  {
    Filter(attrs, (a: Attribute) => a.id != id)
  }

  function RenameAttribute(attrs: seq<Attribute>, id: string, name: string): seq<Attribute>
  {
    MapIf(attrs, (a: Attribute) => a.id == id, (a: Attribute) => a.(name := name))
  }

  function SetAttributeValue(attrs: seq<Attribute>, id: string, i: int, v: string): seq<Attribute>
  {
    MapIf(attrs, (a: Attribute) => a.id == id, (a: Attribute) => a.(values := SetAt(a.values, i, v)))
  }

  function AddAttributeValue(attrs: seq<Attribute>, id: string): seq<Attribute>
  {
    MapIf(attrs, (a: Attribute) => a.id == id, (a: Attribute) => a.(values := a.values + [""]))
  }

  function RemoveAttributeValue(attrs: seq<Attribute>, id: string, i: int): seq<Attribute>
  {
    MapIf(attrs, (a: Attribute) => a.id == id, (a: Attribute) => a.(values := RemoveAt(a.values, i)))
  }

  /** Removing an attribute drops every attribute with that id and keeps the rest in order. */
  lemma RemoveAttributeSpec(attrs: seq<Attribute>, id: string)
    ensures forall a :: a in RemoveAttribute(attrs, id) <==> a in attrs && a.id != id
    ensures IsSubsequence(RemoveAttribute(attrs, id), attrs)
  {
    var p := (a: Attribute) => a.id != id;
    forall a | a in attrs && a.id != id ensures a in RemoveAttribute(attrs, id) {
      FilterKeeps(attrs, p, a);
    }
    FilterIsSubsequence(attrs, p);
  }

  /** Renaming touches the name of the attributes with that id and nothing else. */
  lemma RenameAttributeSpec(attrs: seq<Attribute>, id: string, name: string)
    ensures var r := RenameAttribute(attrs, id, name);
            && |r| == |attrs|
            && (forall k :: 0 <= k < |attrs| && attrs[k].id != id ==> r[k] == attrs[k])
            && (forall k :: 0 <= k < |attrs| && attrs[k].id == id ==>
                  r[k] == Attribute(id, name, attrs[k].values))
  {
  }

  /** `updateAttributeValue` changes only the value at `i` of the attribute with that id:
      the other values, its name and every other attribute are unchanged. */
  lemma SetAttributeValueSpec(attrs: seq<Attribute>, id: string, i: nat, v: string, k: nat)
    requires k < |attrs|
    requires i < |attrs[k].values|
    ensures var r := SetAttributeValue(attrs, id, i, v);
            && |r| == |attrs|
            && (attrs[k].id != id ==> r[k] == attrs[k])
            && (attrs[k].id == id ==>
                  && r[k].id == id && r[k].name == attrs[k].name
                  && |r[k].values| == |attrs[k].values| && r[k].values[i] == v
                  && forall j :: 0 <= j < |r[k].values| && j != i ==> r[k].values[j] == attrs[k].values[j])
  {
  }

  /** `removeAttributeValue` drops only the value at `i` of the attribute with that id. */
  lemma RemoveAttributeValueSpec(attrs: seq<Attribute>, id: string, i: nat, k: nat)
    requires k < |attrs|
    requires i < |attrs[k].values|
    ensures var r := RemoveAttributeValue(attrs, id, i);
            && |r| == |attrs|
            && (attrs[k].id != id ==> r[k] == attrs[k])
            && (attrs[k].id == id ==>
                  && r[k].id == id && r[k].name == attrs[k].name
                  && r[k].values == attrs[k].values[..i] + attrs[k].values[i + 1..])
  {
    var r := RemoveAttributeValue(attrs, id, i);
    if attrs[k].id == id {
      var vs := attrs[k].values;
      assert r[k].values == RemoveAt(vs, i);
      assert RemoveAt(vs, i) == vs[..i] + vs[i + 1..];
    }
  }

  /** Adding a value and removing the last value leaves the attributes as they were. */
  lemma AddThenRemoveValue(attrs: seq<Attribute>, id: string)
    ensures forall k :: 0 <= k < |attrs| ==>
              RemoveAttributeValue(AddAttributeValue(attrs, id), id, |attrs[k].values|)[k] == attrs[k]
  {
    forall k | 0 <= k < |attrs|
      ensures RemoveAttributeValue(AddAttributeValue(attrs, id), id, |attrs[k].values|)[k] == attrs[k]
    {
      if attrs[k].id == id {
        var vs := attrs[k].values;
        assert RemoveAt(vs + [""], |vs|) == vs;
      }
    }
  }

  // ---- variation count ----

  /** `attr.values.filter(v => v).length` */
  function FilledValues(a: Attribute): nat
  {
    Count(a.values, (v: string) => v != "")
  }

  /** `attributes.reduce((acc, attr) => acc * filled(attr), acc)`, left to right. */
  function Reduce(attrs: seq<Attribute>, acc: nat): nat
  {
    if attrs == [] then acc else Reduce(attrs[1..], acc * FilledValues(attrs[0]))
  }

  /** The number of variations the info box shows. */
  function VariationCount(attrs: seq<Attribute>): nat
  {
    Reduce(attrs, 1)
  }

  /** Reference definition: the product of the filled-value counts. */
  function Product(attrs: seq<Attribute>): nat
  {
    if attrs == [] then 1 else FilledValues(attrs[0]) * Product(attrs[1..])
  }

  lemma {:induction false} ReduceIsProduct(attrs: seq<Attribute>, acc: nat)
    ensures Reduce(attrs, acc) == acc * Product(attrs)
  {
    if attrs != [] {
      var f, p := FilledValues(attrs[0]), Product(attrs[1..]);
      ReduceIsProduct(attrs[1..], acc * f);
      assert Reduce(attrs, acc) == (acc * f) * p;
      assert Product(attrs) == f * p;
      MulAssoc(acc, f, p);
    }
  }

  lemma MulAssoc(a: nat, b: nat, c: nat)
    ensures (a * b) * c == a * (b * c)
  {
  }

  /** The count is the product over attributes of their filled values; it is 1
      with no attributes. */
  lemma VariationCountIsProduct(attrs: seq<Attribute>)
    ensures VariationCount(attrs) == Product(attrs)
    ensures attrs == [] ==> VariationCount(attrs) == 1
  {
    ReduceIsProduct(attrs, 1);
  }

  lemma {:induction false} ProductZero(attrs: seq<Attribute>)
    ensures Product(attrs) == 0 <==> exists k :: 0 <= k < |attrs| && FilledValues(attrs[k]) == 0
  {
    if attrs != [] {
      var f, p := FilledValues(attrs[0]), Product(attrs[1..]);
      assert Product(attrs) == f * p;
      MulZero(f, p);
      ProductZero(attrs[1..]);
      if f != 0 && p != 0 {
        forall k | 0 <= k < |attrs| ensures FilledValues(attrs[k]) != 0 {
          if k > 0 {
            assert attrs[k] == attrs[1..][k - 1];
          }
        }
      } else if p == 0 {
        var k :| 0 <= k < |attrs[1..]| && FilledValues(attrs[1..][k]) == 0;
        assert FilledValues(attrs[k + 1]) == 0;
      }
    }
  }

  lemma MulZero(a: nat, b: nat)
    ensures a * b == 0 <==> a == 0 || b == 0
  {
  }

  /** No variations exactly when some attribute has no filled value. */
  lemma VariationCountZero(attrs: seq<Attribute>)
    ensures VariationCount(attrs) == 0 <==> exists k :: 0 <= k < |attrs| && FilledValues(attrs[k]) == 0
  {
    VariationCountIsProduct(attrs);
    ProductZero(attrs);
  }

  /** Right after "Add Attribute" the box shows 0 variations: the new attribute's only
      value is empty. */
  lemma NewAttributeHasNoVariations(attrs: seq<Attribute>, now: nat)
    ensures VariationCount(attrs + [NewAttribute(now)]) == 0
  {
    var r := attrs + [NewAttribute(now)];
    assert FilledValues(r[|attrs|]) == 0;
    VariationCountZero(r);
  }

  /** The box is shown only for grouped products with at least one attribute. */
  predicate ShowsVariations(form: FormData, attrs: seq<Attribute>)
  {
    form.productType == "grouped" && |attrs| > 0
  }

  // ---- images ----

  /** The images made from the chosen files (`URL.createObjectURL` of each is given),
      numbered on from the `start` images already there. */
  function UploadedImages(now: nat, start: nat, urls: seq<string>): (r: seq<ProductImage>)
    ensures |r| == |urls|
    ensures forall i :: 0 <= i < |urls| ==>
              r[i] == ProductImage(NatToString(now) + "-" + NatToString(i), urls[i], "", start + i + 1)
  {
    seq(|urls|, i requires 0 <= i < |urls| =>
      ProductImage(NatToString(now) + "-" + NatToString(i), urls[i], "", start + i + 1))
  }

  /** `handleImageUpload`: no file chosen leaves the images alone. */
  function Upload(images: seq<ProductImage>, now: nat, urls: seq<string>): seq<ProductImage>
  {
    if |urls| > 0 then images + UploadedImages(now, |images|, urls) else images
  }

  /** Display orders `1..n` in list order. */
  predicate Numbered(images: seq<ProductImage>)
  {
    forall k :: 0 <= k < |images| ==> images[k].displayOrder == k + 1
  }

  /** An upload keeps the earlier images and numbers the new ones on from them, so a list
      numbered `1..n` stays numbered. */
  lemma UploadSpec(images: seq<ProductImage>, now: nat, urls: seq<string>)
    ensures var r := Upload(images, now, urls);
            && |r| == |images| + |urls| && r[..|images|] == images
            && (forall i :: 0 <= i < |urls| ==>
                  r[|images| + i].url == urls[i] && r[|images| + i].altText == ""
                  && r[|images| + i].displayOrder == |images| + i + 1)
            && (Numbered(images) ==> Numbered(r))
  {
    var r := Upload(images, now, urls);
    if |urls| > 0 {
      assert r[..|images|] == images;
      forall i | 0 <= i < |urls| ensures r[|images| + i] == UploadedImages(now, |images|, urls)[i] {
      }
    }
  }

  /** The images of one upload have pairwise different ids. */
  lemma UploadedIdsDistinct(now: nat, start: nat, urls: seq<string>, i: nat, j: nat)
    requires i < j < |urls|
    ensures UploadedImages(now, start, urls)[i].id != UploadedImages(now, start, urls)[j].id
  {
    var pre := NatToString(now) + "-";
    if pre + NatToString(i) == pre + NatToString(j) {
      assert NatToString(i) == (pre + NatToString(i))[|pre|..];
      assert NatToString(j) == (pre + NatToString(j))[|pre|..];
      NatToStringInjective(i, j);
    }
  }

  function RemoveImage(images: seq<ProductImage>, id: string): seq<ProductImage>
  {
    Filter(images, (img: ProductImage) => img.id != id)
  }

  function SetImageAlt(images: seq<ProductImage>, id: string, text: string): seq<ProductImage>
  {
    MapIf(images, (img: ProductImage) => img.id == id, (img: ProductImage) => img.(altText := text))
  }

  /** `parseInt(e.target.value) || 0` */
  function SetImageOrder(images: seq<ProductImage>, id: string, input: string): seq<ProductImage>
  {
    MapIf(images, (img: ProductImage) => img.id == id,
      (img: ProductImage) => img.(displayOrder := ParseIntOr(input, 0)))
  }

  /** Removal does not renumber: after removing the first of two uploaded images, the
      next upload is given the order the remaining image already has. */
  lemma RemovalThenUploadRepeatsOrder(now: nat, later: nat)
    ensures var first := Upload([], now, ["blob:a", "blob:b"]);
            var next := Upload(RemoveImage(first, first[0].id), later, ["blob:c"]);
            |next| == 2 && next[0].displayOrder == 2 && next[1].displayOrder == 2
  {
    var first := Upload([], now, ["blob:a", "blob:b"]);
    UploadedIdsDistinct(now, 0, ["blob:a", "blob:b"], 0, 1);
    var p := (img: ProductImage) => img.id != first[0].id;
    assert first == [first[0]] + [first[1]];
    FilterAppend([first[0]], [first[1]], p);
    assert RemoveImage(first, first[0].id) == [first[1]];
  }

  /** Editing an image's alt text or order touches that field of that image only. */
  lemma ImageEditsSpec(images: seq<ProductImage>, id: string, text: string, input: string)
    ensures var r := SetImageAlt(images, id, text);
            |r| == |images| && forall k :: 0 <= k < |images| ==>
              r[k] == (if images[k].id == id then images[k].(altText := text) else images[k])
    ensures var r := SetImageOrder(images, id, input);
            |r| == |images| && forall k :: 0 <= k < |images| ==>
              r[k].id == images[k].id && r[k].url == images[k].url && r[k].altText == images[k].altText
              && r[k].displayOrder == (if images[k].id == id then ParseIntOr(input, 0) else images[k].displayOrder)
  {
  }

  // ---- specifications ----

  /** `{ id: Date.now().toString(), name: '', value: '', displayOrder: specs.length + 1 }` */
  function NewSpecification(now: nat, specs: seq<Specification>): (r: Specification)
    ensures r.displayOrder == |specs| + 1 && r.name == "" && r.value == ""
  {
    Specification(NatToString(now), "", "", |specs| + 1)
  }

  function RenameSpecification(specs: seq<Specification>, id: string, name: string): seq<Specification>
  {
    MapIf(specs, (s: Specification) => s.id == id, (s: Specification) => s.(name := name))
  }

  function SetSpecificationValue(specs: seq<Specification>, id: string, value: string): seq<Specification>
  {
    MapIf(specs, (s: Specification) => s.id == id, (s: Specification) => s.(value := value))
  }

  function SetSpecificationOrder(specs: seq<Specification>, id: string, input: string): seq<Specification>
  {
    MapIf(specs, (s: Specification) => s.id == id, (s: Specification) => s.(displayOrder := ParseIntOr(input, 0)))
  }

  function RemoveSpecification(specs: seq<Specification>, id: string): seq<Specification>
  {
    Filter(specs, (s: Specification) => s.id != id)
  }

  /** Appending specifications to a list numbered `1..n` keeps it numbered. */
  lemma AddSpecificationNumbers(specs: seq<Specification>, now: nat)
    requires forall k :: 0 <= k < |specs| ==> specs[k].displayOrder == k + 1
    ensures var r := specs + [NewSpecification(now, specs)];
            forall k :: 0 <= k < |r| ==> r[k].displayOrder == k + 1
  {
  }

  /** Each specification edit touches one field of the specifications with that id;
      removal keeps exactly the others, in order. */
  lemma SpecificationEditsSpec(specs: seq<Specification>, id: string, text: string, input: string)
    ensures var r := RenameSpecification(specs, id, text);
            |r| == |specs| && forall k :: 0 <= k < |specs| ==>
              r[k] == (if specs[k].id == id then specs[k].(name := text) else specs[k])
    ensures var r := SetSpecificationValue(specs, id, text);
            |r| == |specs| && forall k :: 0 <= k < |specs| ==>
              r[k] == (if specs[k].id == id then specs[k].(value := text) else specs[k])
    ensures var r := SetSpecificationOrder(specs, id, input);
            |r| == |specs| && forall k :: 0 <= k < |specs| ==>
              r[k] == (if specs[k].id == id then specs[k].(displayOrder := ParseIntOr(input, 0)) else specs[k])
    ensures forall s :: s in RemoveSpecification(specs, id) <==> s in specs && s.id != id
    ensures IsSubsequence(RemoveSpecification(specs, id), specs)
  {
    var p := (s: Specification) => s.id != id;
    forall s | s in specs && s.id != id ensures s in RemoveSpecification(specs, id) {
      FilterKeeps(specs, p, s);
    }
    FilterIsSubsequence(specs, p);
  }

  // ---- video URLs ----

  /** Editing a video URL changes that URL only; removing one closes the gap. */
  lemma VideoEditsSpec(urls: seq<string>, i: nat, v: string)
    requires i < |urls|
    ensures SetAt(urls, i, v) == urls[i := v]
    ensures RemoveAt(urls, i) == urls[..i] + urls[i + 1..]
    ensures RemoveAt(urls + [v], |urls|) == urls
  {
    assert RemoveAt(urls + [v], |urls|) == urls;
  }

  /** The page's state: the form, the attribute list and the two picker search terms. */
  class AddProductPage {
    var formData: FormData
    var attributes: seq<Attribute>
    var searchTerm: string
    var searchTermCross: string

    /** The id lists never hold an id twice. */
    predicate Valid()
      reads this
    {
      NoDup(formData.relatedProducts) && NoDup(formData.crossSellProducts)
    }

    constructor ()
      ensures formData == InitialForm && attributes == [] && searchTerm == "" && searchTermCross == ""
      ensures Valid()
    {
      formData, attributes, searchTerm, searchTermCross := InitialForm, [], "", "";
    }

    /** `addRelatedProduct`: the search term is cleared whether or not the id was new. */
    method AddRelatedProduct(id: string)
      requires Valid()
      modifies this
      ensures Valid()
      ensures formData == old(formData).(relatedProducts := AddId(old(formData.relatedProducts), id))
      ensures searchTerm == "" && searchTermCross == old(searchTermCross) && attributes == old(attributes)
    {
      if id !in formData.relatedProducts {
        formData := formData.(relatedProducts := formData.relatedProducts + [id]);
      }
      searchTerm := "";
    }

    method RemoveRelatedProduct(id: string)
      requires Valid()
      modifies this
      ensures Valid()
      ensures formData == old(formData).(relatedProducts := RemoveId(old(formData.relatedProducts), id))
      ensures searchTerm == old(searchTerm) && searchTermCross == old(searchTermCross) && attributes == old(attributes)
    {
      RemoveIdSpec(formData.relatedProducts, id);
      formData := formData.(relatedProducts := RemoveId(formData.relatedProducts, id));
    }

    method AddCrossSellProduct(id: string)
      requires Valid()
      modifies this
      ensures Valid()
      ensures formData == old(formData).(crossSellProducts := AddId(old(formData.crossSellProducts), id))
      ensures searchTermCross == "" && searchTerm == old(searchTerm) && attributes == old(attributes)
    {
      if id !in formData.crossSellProducts {
        formData := formData.(crossSellProducts := formData.crossSellProducts + [id]);
      }
      searchTermCross := "";
    }

    method RemoveCrossSellProduct(id: string)
      requires Valid()
      modifies this
      ensures Valid()
      ensures formData == old(formData).(crossSellProducts := RemoveId(old(formData.crossSellProducts), id))
      ensures searchTerm == old(searchTerm) && searchTermCross == old(searchTermCross) && attributes == old(attributes)
    {
      RemoveIdSpec(formData.crossSellProducts, id);
      formData := formData.(crossSellProducts := RemoveId(formData.crossSellProducts, id));
    }

    /** `addAttribute` at clock reading `now`. */
    method AddAttribute(now: nat)
      modifies this
      ensures attributes == old(attributes) + [NewAttribute(now)]
      ensures formData == old(formData) && searchTerm == old(searchTerm) && searchTermCross == old(searchTermCross)
    {
      attributes := attributes + [NewAttribute(now)];
    }

    method RemoveAttributeById(id: string)
      modifies this
      ensures attributes == RemoveAttribute(old(attributes), id)
      ensures formData == old(formData) && searchTerm == old(searchTerm) && searchTermCross == old(searchTermCross)
    {
      attributes := RemoveAttribute(attributes, id);
    }

    method UpdateAttributeName(id: string, name: string)
      modifies this
      ensures attributes == RenameAttribute(old(attributes), id, name)
      ensures formData == old(formData) && searchTerm == old(searchTerm) && searchTermCross == old(searchTermCross)
    {
      attributes := RenameAttribute(attributes, id, name);
    }

    method UpdateAttributeValue(id: string, i: int, v: string)
      modifies this
      ensures attributes == SetAttributeValue(old(attributes), id, i, v)
      ensures formData == old(formData) && searchTerm == old(searchTerm) && searchTermCross == old(searchTermCross)
    {
      attributes := SetAttributeValue(attributes, id, i, v);
    }

    method AddValue(id: string)
      modifies this
      ensures attributes == AddAttributeValue(old(attributes), id)
      ensures formData == old(formData) && searchTerm == old(searchTerm) && searchTermCross == old(searchTermCross)
    {
      attributes := AddAttributeValue(attributes, id);
    }

    method RemoveValue(id: string, i: int)
      modifies this
      ensures attributes == RemoveAttributeValue(old(attributes), id, i)
      ensures formData == old(formData) && searchTerm == old(searchTerm) && searchTermCross == old(searchTermCross)
    {
      attributes := RemoveAttributeValue(attributes, id, i);
    }

    /** `handleImageUpload` with the clock reading and the object URLs of the chosen files. */
    method HandleImageUpload(now: nat, urls: seq<string>)
      requires Valid()
      modifies this
      ensures Valid()
      ensures formData == old(formData).(productImages := Upload(old(formData.productImages), now, urls))
      ensures attributes == old(attributes) && searchTerm == old(searchTerm) && searchTermCross == old(searchTermCross)
    {
      if |urls| > 0 {
        formData := formData.(productImages := formData.productImages
          + UploadedImages(now, |formData.productImages|, urls));
      }
    }

    method RemoveImageById(id: string)
      requires Valid()
      modifies this
      ensures Valid()
      ensures formData == old(formData).(productImages := RemoveImage(old(formData.productImages), id))
      ensures attributes == old(attributes) && searchTerm == old(searchTerm) && searchTermCross == old(searchTermCross)
    {
      formData := formData.(productImages := RemoveImage(formData.productImages, id));
    }

    method UpdateImageAlt(id: string, text: string)
      requires Valid()
      modifies this
      ensures Valid()
      ensures formData == old(formData).(productImages := SetImageAlt(old(formData.productImages), id, text))
      ensures attributes == old(attributes) && searchTerm == old(searchTerm) && searchTermCross == old(searchTermCross)
    {
      formData := formData.(productImages := SetImageAlt(formData.productImages, id, text));
    }

    method UpdateImageOrder(id: string, input: string)
      requires Valid()
      modifies this
      ensures Valid()
      ensures formData == old(formData).(productImages := SetImageOrder(old(formData.productImages), id, input))
      ensures attributes == old(attributes) && searchTerm == old(searchTerm) && searchTermCross == old(searchTermCross)
    {
      formData := formData.(productImages := SetImageOrder(formData.productImages, id, input));
    }

    method AddVideo()
      requires Valid()
      modifies this
      ensures Valid()
      ensures formData == old(formData).(videoUrls := old(formData.videoUrls) + [""])
      ensures attributes == old(attributes) && searchTerm == old(searchTerm) && searchTermCross == old(searchTermCross)
    {
      formData := formData.(videoUrls := formData.videoUrls + [""]);
    }

    method UpdateVideo(i: int, v: string)
      requires Valid()
      modifies this
      ensures Valid()
      ensures formData == old(formData).(videoUrls := SetAt(old(formData.videoUrls), i, v))
      ensures attributes == old(attributes) && searchTerm == old(searchTerm) && searchTermCross == old(searchTermCross)
    {
      formData := formData.(videoUrls := SetAt(formData.videoUrls, i, v));
    }

    method RemoveVideo(i: int)
      requires Valid()
      modifies this
      ensures Valid()
      ensures formData == old(formData).(videoUrls := RemoveAt(old(formData.videoUrls), i))
      ensures attributes == old(attributes) && searchTerm == old(searchTerm) && searchTermCross == old(searchTermCross)
    {
      formData := formData.(videoUrls := RemoveAt(formData.videoUrls, i));
    }

    method AddSpecification(now: nat)
      requires Valid()
      modifies this
      ensures Valid()
      ensures formData == old(formData).(specifications :=
                old(formData.specifications) + [NewSpecification(now, old(formData.specifications))])
      ensures attributes == old(attributes) && searchTerm == old(searchTerm) && searchTermCross == old(searchTermCross)
    {
      formData := formData.(specifications := formData.specifications
        + [NewSpecification(now, formData.specifications)]);
    }

    method UpdateSpecificationName(id: string, name: string)
      requires Valid()
      modifies this
      ensures Valid()
      ensures formData == old(formData).(specifications := RenameSpecification(old(formData.specifications), id, name))
      ensures attributes == old(attributes) && searchTerm == old(searchTerm) && searchTermCross == old(searchTermCross)
    {
      formData := formData.(specifications := RenameSpecification(formData.specifications, id, name));
    }

    method UpdateSpecificationValue(id: string, value: string)
      requires Valid()
      modifies this
      ensures Valid()
      ensures formData == old(formData).(specifications := SetSpecificationValue(old(formData.specifications), id, value))
      ensures attributes == old(attributes) && searchTerm == old(searchTerm) && searchTermCross == old(searchTermCross)
    {
      formData := formData.(specifications := SetSpecificationValue(formData.specifications, id, value));
    }

    method UpdateSpecificationOrder(id: string, input: string)
      requires Valid()
      modifies this
      ensures Valid()
      ensures formData == old(formData).(specifications := SetSpecificationOrder(old(formData.specifications), id, input))
      ensures attributes == old(attributes) && searchTerm == old(searchTerm) && searchTermCross == old(searchTermCross)
    {
      formData := formData.(specifications := SetSpecificationOrder(formData.specifications, id, input));
    }

    method RemoveSpecificationById(id: string)
      requires Valid()
      modifies this
      ensures Valid()
      ensures formData == old(formData).(specifications := RemoveSpecification(old(formData.specifications), id))
      ensures attributes == old(attributes) && searchTerm == old(searchTerm) && searchTermCross == old(searchTermCross)
    {
      formData := formData.(specifications := RemoveSpecification(formData.specifications, id));
    }
  }
}
