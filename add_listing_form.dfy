/** The new-listing form: a duplicate-free tag list, a list of variations
    built from a draft, and the SKU that selecting a fragrance fills in. */
module AddListingForm {
  import opened Common
  import opened InventoryTable

  datatype ListingPlatform = NoPlatform | EtsyListing | WooCommerceListing

  datatype Variation = Variation(id: string, name: string, price: string, fragranceId: string, sku: string)

  /** The variation being typed in, before it has an id. */
  datatype VariationDraft = VariationDraft(name: string, price: string, fragranceId: string, sku: string)

  const EmptyVariation := VariationDraft("", "", "", "")

  datatype ListingFormData = ListingFormData(
    title: string,
    description: string,
    platform: ListingPlatform,
    price: string,
    fragranceId: string,
    sku: string,
    variations: seq<Variation>,
    tags: seq<string>,
    category: string,
    images: seq<string>)

  const EmptyListing := ListingFormData("", "", NoPlatform, "", "", "", [], [], "", [])

  // --------------------------------------------------------------- fragrances

  /** `fragrances.find(f => f.id === id)`: the first fragrance with that id. */
  function FindFragrance(fragrances: seq<FragranceItem>, id: string): (r: Option<FragranceItem>)
    ensures r.None? <==> forall f :: f in fragrances ==> f.id != id
    ensures r.Some? ==> r.value in fragrances && r.value.id == id
    ensures r.Some? ==> exists i :: 0 <= i < |fragrances| && fragrances[i] == r.value &&
                                    forall j :: 0 <= j < i ==> fragrances[j].id != id
  {
    if fragrances == [] then None
    else if fragrances[0].id == id then Some(fragrances[0])
    else
      var r := FindFragrance(fragrances[1..], id);
      assert r.Some? ==> exists i :: 0 <= i < |fragrances| && fragrances[i] == r.value &&
                                     forall j :: 0 <= j < i ==> fragrances[j].id != id by {
        if r.Some? {
          var i :| 0 <= i < |fragrances[1..]| && fragrances[1..][i] == r.value &&
                   forall j :: 0 <= j < i ==> fragrances[1..][j].id != id;
          assert fragrances[i + 1] == r.value;
          assert forall j :: 0 <= j < i + 1 ==> fragrances[j].id != id by {
            forall j | 0 <= j < i + 1
              ensures fragrances[j].id != id
            {
              if j > 0 {
                assert fragrances[j] == fragrances[1..][j - 1];
              }
            }
          }
        }
      }
      r
  }

  /** getFragranceName: the name of the fragrance with that id, or '' when there is none. */
  function FragranceName(fragrances: seq<FragranceItem>, id: string): (r: string)
    ensures (forall f :: f in fragrances ==> f.id != id) ==> r == ""
    ensures r != "" ==> exists f :: f in fragrances && f.id == id && f.name == r
    ensures FindFragrance(fragrances, id).Some? ==> r == FindFragrance(fragrances, id).value.name
  {
    match FindFragrance(fragrances, id)
    case None => ""
    case Some(f) => f.name
  }

  /** The SKU autofill effect: when a fragrance id is chosen and a fragrance
      has it, the listing's SKU becomes that fragrance's SKU. */
  function AutofillSku(form: ListingFormData, fragrances: seq<FragranceItem>): (r: ListingFormData)
    ensures r == form || r == form.(sku := r.sku)
    ensures form.fragranceId != "" && FindFragrance(fragrances, form.fragranceId).Some? ==>
              exists f :: f in fragrances && f.id == form.fragranceId && r.sku == f.sku
    ensures form.fragranceId == "" || FindFragrance(fragrances, form.fragranceId).None? ==> r == form
  {
    if form.fragranceId == "" then form
    else match FindFragrance(fragrances, form.fragranceId)
      case None => form
      case Some(f) => form.(sku := f.sku)
  }

  /** handleFragranceSelect followed by the autofill it triggers. */
  function SelectFragrance(form: ListingFormData, fragrances: seq<FragranceItem>, id: string): (r: ListingFormData)
    ensures r.fragranceId == id
    ensures r.(sku := form.sku) == form.(fragranceId := id)
    ensures (forall f :: f in fragrances ==> f.id != id) ==> r.sku == form.sku
    ensures id != "" && FindFragrance(fragrances, id).Some? ==> r.sku == FindFragrance(fragrances, id).value.sku
    ensures id == "" ==> r == form.(fragranceId := id)
  {
    AutofillSku(form.(fragranceId := id), fragrances)
  }

  /** handleVariationFragranceSelect: a known fragrance sets the draft's
      fragrance id and SKU; an unknown id leaves the draft as it was. */
  function SelectVariationFragrance(draft: VariationDraft, fragrances: seq<FragranceItem>, id: string): (r: VariationDraft)
    ensures (forall f :: f in fragrances ==> f.id != id) ==> r == draft
    ensures (exists f :: f in fragrances && f.id == id) ==>
              r.name == draft.name && r.price == draft.price && r.fragranceId == id &&
              exists f :: f in fragrances && f.id == id && r.sku == f.sku
  {
    match FindFragrance(fragrances, id)
    case None => draft
    case Some(f) => draft.(fragranceId := id, sku := f.sku)
  }

  // --------------------------------------------------------------------- tags

  predicate TagAccepted(tags: seq<string>, newTag: string) {
    newTag != "" && newTag !in tags
  }

  /** addTag: a non-empty tag that is not yet present goes at the end. */
  function AddTag(tags: seq<string>, newTag: string): (r: seq<string>)
    ensures TagAccepted(tags, newTag) ==> r == tags + [newTag]
    ensures !TagAccepted(tags, newTag) ==> r == tags
    ensures newTag != "" ==> newTag in r
    ensures Distinct(tags) ==> Distinct(r)
  {
    if TagAccepted(tags, newTag) then
      assert Distinct(tags) ==> Distinct(tags + [newTag]) by {
        if Distinct(tags) {
          var t := tags + [newTag];
          forall i, j | 0 <= i < j < |t|
            ensures t[i] != t[j]
          {
            assert t[i] == tags[i];
            if j < |tags| {
              assert t[j] == tags[j];
            }
          }
        }
      }
      tags + [newTag]
    else tags
  }

  /** removeTag: every occurrence of the tag goes, the others stay in order. */
  function RemoveTag(tags: seq<string>, tag: string): (r: seq<string>)
    ensures forall t :: t in r <==> t in tags && t != tag
    ensures Distinct(tags) ==> Distinct(r)
  {
    if Distinct(tags) then
      FilterDistinct(tags, (t: string) => t != tag);
      Filter(tags, (t: string) => t != tag)
    else Filter(tags, (t: string) => t != tag)
  }

  /** Removing a tag just added gives back the list it was added to. */
  lemma RemoveUndoesAdd(tags: seq<string>, newTag: string)
    requires TagAccepted(tags, newTag)
    ensures RemoveTag(AddTag(tags, newTag), newTag) == tags
  {
    var p := (t: string) => t != newTag;
    FilterAppend(tags, [newTag], p);
    FilterAll(tags, p);
    assert Filter([newTag], p) == [];
  }

  // --------------------------------------------------------------- variations

  /** addVariation needs a name, a price and a fragrance. */
  predicate VariationComplete(draft: VariationDraft) {
    draft.name != "" && draft.price != "" && draft.fragranceId != ""
  }

  function VariationOf(draft: VariationDraft, id: string): (v: Variation)
    ensures v.id == id
    ensures VariationDraft(v.name, v.price, v.fragranceId, v.sku) == draft
  {
    Variation(id, draft.name, draft.price, draft.fragranceId, draft.sku)
  }

  /** removeVariation: the variations with that id go, the rest stay in order. */
  function RemoveVariation(variations: seq<Variation>, id: string): (r: seq<Variation>)
    ensures forall v :: v in r <==> v in variations && v.id != id
    ensures |r| <= |variations|
  {
    Filter(variations, (v: Variation) => v.id != id)
  }

  /** Removing a variation by an id nobody else has undoes adding it. */
  lemma RemoveVariationUndoesAdd(variations: seq<Variation>, v: Variation)
    requires forall w :: w in variations ==> w.id != v.id
    ensures RemoveVariation(variations + [v], v.id) == variations
  {
    var p := (w: Variation) => w.id != v.id;
    FilterAppend(variations, [v], p);
    FilterAll(variations, p);
    assert Filter([v], p) == [];
  }

  /** The form's state: the listing being built, the tag input and the variation draft. */
  class ListingForm {
    var formData: ListingFormData
    var newTag: string
    var newVariation: VariationDraft

    ghost predicate Valid()
      reads this
    {
      Distinct(formData.tags)
    }

    constructor ()
      ensures Valid()
      ensures formData == EmptyListing && newTag == "" && newVariation == EmptyVariation
    {
      formData := EmptyListing;
      newTag := "";
      newVariation := EmptyVariation;
    }

    method TypeTag(text: string)
      modifies this`newTag
      ensures newTag == text
    {
      newTag := text;
    }

    /** addTag: the typed tag is added when it is accepted, and only then is the input cleared. */
    method AddTypedTag() returns (added: bool)
      requires Valid()
      modifies this`formData, this`newTag
      ensures Valid()
      ensures added <==> TagAccepted(old(formData).tags, old(newTag))
      ensures formData == old(formData).(tags := AddTag(old(formData).tags, old(newTag)))
      ensures added ==> newTag == "" && formData.tags == old(formData).tags + [old(newTag)]
      ensures !added ==> newTag == old(newTag) && formData == old(formData)
    {
      added := TagAccepted(formData.tags, newTag);
      formData := formData.(tags := AddTag(formData.tags, newTag));
      if added {
        newTag := "";
      }
    }

    method RemoveTagNamed(tag: string)
      requires Valid()
      modifies this`formData
      ensures Valid()
      ensures formData == old(formData).(tags := RemoveTag(old(formData).tags, tag))
      ensures tag !in formData.tags
    {
      formData := formData.(tags := RemoveTag(formData.tags, tag));
    }

    /** addVariation: a complete draft is appended with the fresh id and the
        draft is emptied; an incomplete one changes nothing. */
    method AddVariation(freshId: string) returns (added: bool)
      requires Valid()
      modifies this`formData, this`newVariation
      ensures Valid()
      ensures added <==> VariationComplete(old(newVariation))
      ensures added ==> formData == old(formData).(variations := old(formData).variations + [VariationOf(old(newVariation), freshId)])
      ensures added ==> newVariation == EmptyVariation
      ensures !added ==> formData == old(formData) && newVariation == old(newVariation)
    {
      added := VariationComplete(newVariation);
      if added {
        formData := formData.(variations := formData.variations + [VariationOf(newVariation, freshId)]);
        newVariation := EmptyVariation;
      }
    }

    method RemoveVariationById(id: string)
      requires Valid()
      modifies this`formData
      ensures Valid()
      ensures formData == old(formData).(variations := RemoveVariation(old(formData).variations, id))
    {
      formData := formData.(variations := RemoveVariation(formData.variations, id));
    }

    method ChooseFragrance(fragrances: seq<FragranceItem>, id: string)
      requires Valid()
      modifies this`formData
      ensures Valid()
      ensures formData == SelectFragrance(old(formData), fragrances, id)
    {
      formData := SelectFragrance(formData, fragrances, id);
    }

    method ChooseVariationFragrance(fragrances: seq<FragranceItem>, id: string)
      modifies this`newVariation
      ensures newVariation == SelectVariationFragrance(old(newVariation), fragrances, id)
    {
      newVariation := SelectVariationFragrance(newVariation, fragrances, id);
    }
  }
}
