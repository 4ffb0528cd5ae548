/** The supplies screen: supply categories with their supplies, the supply
    form and how it is normalised into the row a create or an update sends,
    and the guard that keeps a category with supplies from being deleted. */
module Supplies {
  import opened Common

  datatype Supply = Supply(id: string, categoryId: string, name: string, vendor: Option<string>,
                           price: Option<real>, unit: string)

  datatype CategoryWithSupplies = CategoryWithSupplies(id: string, name: string, supplies: seq<Supply>)

  datatype SupplyForm = SupplyForm(name: string, vendor: string, price: string, unit: string, categoryId: string)

  const EmptySupplyForm := SupplyForm("", "", "", "", "")

  /** The columns a create or an update writes. */
  datatype SupplyFields = SupplyFields(name: string, vendor: Option<string>, price: Option<real>,
                                       unit: string, categoryId: string)

  /** `price ? parseFloat(price) : null`, where `parsed` is parseFloat's
      value (None for NaN, which is sent as null). */
  function PriceField(price: string, parsed: Option<real>): (r: Option<real>)
    ensures price == "" ==> r.None?
    ensures price != "" ==> r == parsed
  {
    if price == "" then None else parsed
  }

  /** The normalised form: trimmed name and unit, a blank vendor as null,
      the price as above, and the category as it is. */
  function Normalise(form: SupplyForm, parsedPrice: Option<real>): (r: SupplyFields)
    ensures r.name == Trim(form.name) && r.unit == Trim(form.unit) && r.categoryId == form.categoryId
    ensures r.vendor.None? <==> AllWhitespace(form.vendor)
    ensures r.vendor.Some? ==> r.vendor.value == Trim(form.vendor)
    ensures r.price == PriceField(form.price, parsedPrice)
  {
    SupplyFields(Trim(form.name), TrimOrNull(form.vendor), PriceField(form.price, parsedPrice),
                 Trim(form.unit), form.categoryId)
  }

  /** Normalising the stored name, vendor and unit again changes none of them. */
  lemma NormaliseIdempotent(form: SupplyForm, parsedPrice: Option<real>)
    ensures var f := Normalise(form, parsedPrice);
            var g := Normalise(SupplyForm(f.name, f.vendor.GetOr(""), form.price, f.unit, f.categoryId), parsedPrice);
            g == f
  {
    TrimIdempotent(form.name);
    TrimIdempotent(form.unit);
    TrimOrNullIdempotent(form.vendor);
  }

  /** handleCreateSupply: the insert, or nothing when the trimmed name or
      unit is empty or no category is chosen. */
  function CreateSupply(form: SupplyForm, parsedPrice: Option<real>): (r: Option<SupplyFields>)
    ensures r.None? <==> AllWhitespace(form.name) || AllWhitespace(form.unit) || form.categoryId == ""
    ensures r.Some? ==> r.value == Normalise(form, parsedPrice) && r.value.name != "" && r.value.unit != ""
  {
    if Trim(form.name) == "" || Trim(form.unit) == "" || form.categoryId == "" then None
    else Some(Normalise(form, parsedPrice))
  }

  /** handleUpdateSupply: the update of the edited supply's row, or nothing
      when no supply is being edited or the trimmed name or unit is empty. */
  function UpdateSupply(form: SupplyForm, editing: Option<Supply>, parsedPrice: Option<real>): (r: Option<(string, SupplyFields)>)
    ensures r.None? <==> editing.None? || AllWhitespace(form.name) || AllWhitespace(form.unit)
    ensures r.Some? ==> r.value.0 == editing.value.id && r.value.1 == Normalise(form, parsedPrice)
    ensures r.Some? ==> r.value.1.name != "" && r.value.1.unit != ""
  {
    if editing.None? || Trim(form.name) == "" || Trim(form.unit) == "" then None
    else Some((editing.value.id, Normalise(form, parsedPrice)))
  }

  /** handleCreateCategory: the trimmed name, or nothing when it is blank. */
  function CreateCategory(name: string): (r: Option<string>)
    ensures r.None? <==> AllWhitespace(name)
    ensures r.Some? ==> r.value == Trim(name) && r.value != ""
  {
    TrimOrNull(name)
  }

  /** handleEditSupply: the supply's values in the form, a missing vendor or
      price shown as ''; `priceText` is the price's toString. */
  function EditForm(s: Supply, priceText: string): (f: SupplyForm)
    ensures f.name == s.name && f.unit == s.unit && f.categoryId == s.categoryId
    ensures s.vendor.None? ==> f.vendor == ""
    ensures s.vendor.Some? ==> f.vendor == s.vendor.value
    ensures s.price.None? ==> f.price == ""
    ensures s.price.Some? ==> f.price == priceText
  {
    SupplyForm(s.name, s.vendor.GetOr(""), if s.price.Some? then priceText else "", s.unit, s.categoryId)
  }

  /** Saving an unchanged edit form of a supply whose name, unit and vendor
      are stored trimmed writes the supply's own values back. */
  lemma EditThenUpdateKeepsSupply(s: Supply, priceText: string)
    requires Trimmed(s.name) && Trimmed(s.unit)
    requires s.vendor.Some? ==> Trimmed(s.vendor.value)
    requires s.price.Some? ==> priceText != ""
    ensures UpdateSupply(EditForm(s, priceText), Some(s), s.price) ==
            Some((s.id, SupplyFields(s.name, s.vendor, s.price, s.unit, s.categoryId)))
  {
    var f := EditForm(s, priceText);
    assert Trim(f.name) == s.name by { TrimmedIsFixed(s.name); }
    assert Trim(f.unit) == s.unit by { TrimmedIsFixed(s.unit); }
    assert TrimOrNull(f.vendor) == s.vendor by {
      if s.vendor.Some? {
        TrimmedIsFixed(s.vendor.value);
      } else {
        assert AllWhitespace(f.vendor);
      }
    }
  }

  /** openSupplyDialog: an empty form, with the category filled in when one is given. */
  function DialogForm(categoryId: Option<string>): (f: SupplyForm)
    ensures categoryId.Some? && categoryId.value != "" ==> f == EmptySupplyForm.(categoryId := categoryId.value)
    ensures categoryId.None? || categoryId.value == "" ==> f == EmptySupplyForm
  {
    if categoryId.Some? && categoryId.value != "" then EmptySupplyForm.(categoryId := categoryId.value)
    else EmptySupplyForm
  }

  /** The category with that id in the loaded list, if any. */
  function FindCategory(categories: seq<CategoryWithSupplies>, id: string): (r: Option<CategoryWithSupplies>)
    ensures r.None? <==> forall c :: c in categories ==> c.id != id
    ensures r.Some? ==> r.value in categories && r.value.id == id
  {
    if categories == [] then None
    else if categories[0].id == id then Some(categories[0])
    else FindCategory(categories[1..], id)
  }

  /** handleDeleteCategory's guard: the delete is refused when the loaded
      category with that id has supplies; a category that is not loaded is deleted. */
  function DeleteAllowed(categories: seq<CategoryWithSupplies>, id: string): (ok: bool)
    ensures !ok <==> exists c :: c in categories && c.id == id && |c.supplies| > 0 &&
                                 FindCategory(categories, id) == Some(c)
    ensures (forall c :: c in categories && c.id == id ==> c.supplies == []) ==> ok
  {
    match FindCategory(categories, id)
    case None => true
    case Some(c) => |c.supplies| == 0
  }

  /** The screen's state. */
  class SuppliesPage {
    var categories: seq<CategoryWithSupplies>
    var supplyForm: SupplyForm
    var editingSupply: Option<Supply>
    var supplyDialogOpen: bool

    constructor (loaded: seq<CategoryWithSupplies>)
      ensures categories == loaded && supplyForm == EmptySupplyForm && editingSupply.None? && !supplyDialogOpen
    {
      categories := loaded;
      supplyForm := EmptySupplyForm;
      editingSupply := None;
      supplyDialogOpen := false;
    }

    method OpenSupplyDialog(categoryId: Option<string>)
      modifies this`supplyForm, this`editingSupply, this`supplyDialogOpen
      ensures supplyForm == DialogForm(categoryId) && editingSupply.None? && supplyDialogOpen
    {
      supplyForm := DialogForm(categoryId);
      editingSupply := None;
      supplyDialogOpen := true;
    }

    method EditSupply(s: Supply, priceText: string)
      modifies this`supplyForm, this`editingSupply, this`supplyDialogOpen
      ensures supplyForm == EditForm(s, priceText) && editingSupply == Some(s) && supplyDialogOpen
    {
      supplyForm := EditForm(s, priceText);
      editingSupply := Some(s);
      supplyDialogOpen := true;
    }

    /** handleCreateSupply given the insert's error, if any: the row sent,
        and on success an empty form and a closed dialog. */
    method CreateSupplyFromForm(parsedPrice: Option<real>, insertError: Option<string>) returns (sent: Option<SupplyFields>)
      modifies this`supplyForm, this`supplyDialogOpen
      ensures sent == CreateSupply(old(supplyForm), parsedPrice)
      ensures sent.Some? && insertError.None? ==> supplyForm == EmptySupplyForm && !supplyDialogOpen
      ensures sent.None? || insertError.Some? ==> supplyForm == old(supplyForm) && supplyDialogOpen == old(supplyDialogOpen)
    {
      sent := CreateSupply(supplyForm, parsedPrice);
      if sent.Some? && insertError.None? {
        supplyForm := EmptySupplyForm;
        supplyDialogOpen := false;
      }
    }

    /** handleUpdateSupply given the update's error, if any: the update sent,
        and on success an empty form, no supply being edited and a closed dialog. */
    method UpdateSupplyFromForm(parsedPrice: Option<real>, updateError: Option<string>) returns (sent: Option<(string, SupplyFields)>)
      modifies this`supplyForm, this`editingSupply, this`supplyDialogOpen
      ensures sent == UpdateSupply(old(supplyForm), old(editingSupply), parsedPrice)
      ensures sent.Some? && updateError.None? ==> supplyForm == EmptySupplyForm && editingSupply.None? && !supplyDialogOpen
      ensures sent.None? || updateError.Some? ==>
                supplyForm == old(supplyForm) && editingSupply == old(editingSupply) && supplyDialogOpen == old(supplyDialogOpen)
    {
      sent := UpdateSupply(supplyForm, editingSupply, parsedPrice);
      if sent.Some? && updateError.None? {
        supplyForm := EmptySupplyForm;
        editingSupply := None;
        supplyDialogOpen := false;
      }
    }

    /** handleDeleteCategory: whether the delete is issued. */
    method DeleteCategory(id: string) returns (issued: bool)
      ensures issued == DeleteAllowed(categories, id)
      ensures !issued ==> exists c :: c in categories && c.id == id && |c.supplies| > 0
    {
      issued := DeleteAllowed(categories, id);
    }
  }
}
