/** The idea table shared by the design-idea and product-idea pages:
    pagination over the ideas, the create and update forms with their
    validation and normalisation, and the star toggle. */
module IdeaTable {
  import opened Common

  // ---------------------------------------------------------------- pagination

  /** `Math.ceil(n / pageSize)`. */
  function TotalPages(n: nat, pageSize: nat): (r: nat)
    requires pageSize > 0
    ensures r * pageSize >= n
    ensures r > 0 ==> (r - 1) * pageSize < n
    ensures r == 0 <==> n == 0
  {
    (n + pageSize - 1) / pageSize
  }

  function MinNat(a: nat, b: nat): nat {
    if a <= b then a else b
  }

  /** The ideas on a page: `ideas.slice((page - 1) * size, page * size)`, where
      slice stops at the end of the list. */
  function PageOf<T>(ideas: seq<T>, page: nat, pageSize: nat): (r: seq<T>)
    requires page >= 1 && pageSize > 0
    ensures |r| <= pageSize
    ensures (page - 1) * pageSize < |ideas| ==> r == ideas[(page - 1) * pageSize..MinNat(page * pageSize, |ideas|)]
    ensures (page - 1) * pageSize >= |ideas| ==> r == []
  {
    var start, end := MinNat((page - 1) * pageSize, |ideas|), MinNat(page * pageSize, |ideas|);
    ideas[start..end]
  }

  /** Pages 1..k one after another. */
  function FirstPages<T>(ideas: seq<T>, k: nat, pageSize: nat): seq<T>
    requires pageSize > 0
  {
    if k == 0 then [] else FirstPages(ideas, k - 1, pageSize) + PageOf(ideas, k, pageSize)
  }

  lemma {:induction false} FirstPagesArePrefix<T>(ideas: seq<T>, k: nat, pageSize: nat)
    requires pageSize > 0
    ensures FirstPages(ideas, k, pageSize) == ideas[..MinNat(k * pageSize, |ideas|)]
  {
    if k > 0 {
      FirstPagesArePrefix(ideas, k - 1, pageSize);
      var a, b := MinNat((k - 1) * pageSize, |ideas|), MinNat(k * pageSize, |ideas|);
      assert (k - 1) * pageSize <= k * pageSize;
      assert ideas[..a] + ideas[a..b] == ideas[..b];
    }
  }

  /** Pages 1..totalPages, one after another, give back the whole list. */
  lemma PagesCoverList<T>(ideas: seq<T>, pageSize: nat)
    requires pageSize > 0
    ensures FirstPages(ideas, TotalPages(|ideas|, pageSize), pageSize) == ideas
  {
    FirstPagesArePrefix(ideas, TotalPages(|ideas|, pageSize), pageSize);
  }

  /** Every page up to totalPages has something on it, and every page after it
      is empty. */
  lemma PagesInRangeNonEmpty<T>(ideas: seq<T>, page: nat, pageSize: nat)
    requires page >= 1 && pageSize > 0
    ensures PageOf(ideas, page, pageSize) != [] <==> page <= TotalPages(|ideas|, pageSize)
  {
    var t := TotalPages(|ideas|, pageSize);
    if page <= t {
      MulMonotone(page - 1, t - 1, pageSize);
      MulMonotone(page - 1, page, pageSize);
    } else {
      MulMonotone(t, page - 1, pageSize);
    }
  }

  lemma MulMonotone(a: nat, b: nat, c: nat)
    requires a <= b
    ensures a * c <= b * c
  {
  }

  /** Previous: one page back, never below 1. */
  function PrevPage(current: nat): (r: nat)
    ensures current >= 1 ==> r >= 1
    ensures r == if current > 1 then current - 1 else current
  {
    if current > 1 then current - 1 else current
  }

  /** Next: one page on, never beyond totalPages. */
  function NextPage(current: nat, totalPages: nat): (r: nat)
    ensures r >= current
    ensures current <= totalPages ==> r <= totalPages
    ensures r == if current < totalPages then current + 1 else current
  {
    if current < totalPages then current + 1 else current
  }

  /** The page controls are shown only when there is more than one page, that
      is, when the list is longer than a page. */
  function ShowControls(n: nat, pageSize: nat): (show: bool)
    requires pageSize > 0
    ensures show <==> n > pageSize
  {
    var t := TotalPages(n, pageSize);
    if t > 1 then
      assert (t - 1) * pageSize >= pageSize;
      true
    else
      assert t * pageSize <= pageSize;
      false
  }

  // ---------------------------------------------------------------- forms

  datatype IdeaItem = IdeaItem(id: string, name: string, productType: string,
                               collectionTargeting: Option<string>, description: Option<string>, isStarred: bool)

  datatype IdeaForm = IdeaForm(name: string, productType: string, collectionTargeting: string, description: string)

  const EmptyForm := IdeaForm("", "", "", "")

  /** The stored fields: name and product type trimmed, optional fields trimmed
      or null when blank. */
  datatype IdeaFields = IdeaFields(name: string, productType: string,
                                   collectionTargeting: Option<string>, description: Option<string>)

  /** The validation and normalisation of handleSave and handleUpdate. */
  function Normalise(form: IdeaForm): (r: Option<IdeaFields>)
    ensures r.None? <==> AllWhitespace(form.name) || AllWhitespace(form.productType)
    ensures r.Some? ==> r.value.name == Trim(form.name) && r.value.productType == Trim(form.productType) &&
                        r.value.name != "" && r.value.productType != ""
    ensures r.Some? ==> r.value.collectionTargeting == TrimOrNull(form.collectionTargeting) &&
                        r.value.description == TrimOrNull(form.description)
  {
    if Trim(form.name) == "" || Trim(form.productType) == "" then None
    else Some(IdeaFields(Trim(form.name), Trim(form.productType),
                         TrimOrNull(form.collectionTargeting), TrimOrNull(form.description)))
  }

  /** Normalising what was stored changes nothing: the stored fields are already trimmed. */
  lemma NormaliseIdempotent(form: IdeaForm)
    requires Normalise(form).Some?
    ensures var f := Normalise(form).value;
      Normalise(IdeaForm(f.name, f.productType, f.collectionTargeting.GetOr(""), f.description.GetOr(""))) == Some(f)
  {
    TrimIdempotent(form.name);
    TrimIdempotent(form.productType);
    TrimOrNullIdempotent(form.collectionTargeting);
    TrimOrNullIdempotent(form.description);
  }

  /** handleEdit: the idea's fields in the edit form, null shown as ''. */
  function EditFormOf(idea: IdeaItem): (f: IdeaForm)
    ensures f.name == idea.name && f.productType == idea.productType
    ensures f.collectionTargeting == idea.collectionTargeting.GetOr("")
    ensures f.description == idea.description.GetOr("")
  {
    IdeaForm(idea.name, idea.productType, idea.collectionTargeting.GetOr(""), idea.description.GetOr(""))
  }

  /** toggleStar's update of the stored ideas: every row with that id gets
      `is_starred` set to the opposite of the flag the row showed; the other
      rows, and the order, stay. */
  function ToggleStar(ideas: seq<IdeaItem>, id: string, currentStarred: bool): (r: seq<IdeaItem>)
    ensures |r| == |ideas|
    ensures forall i :: 0 <= i < |ideas| && ideas[i].id == id ==> r[i] == ideas[i].(isStarred := !currentStarred)
    ensures forall i :: 0 <= i < |ideas| && ideas[i].id != id ==> r[i] == ideas[i]
  {
    if ideas == [] then []
    else
      var head := if ideas[0].id == id then ideas[0].(isStarred := !currentStarred) else ideas[0];
      [head] + ToggleStar(ideas[1..], id, currentStarred)
  }

  /** Clicking the star twice, each time with the flag the row then shows,
      gives back the stored ideas. */
  lemma {:induction false} ToggleStarTwice(ideas: seq<IdeaItem>, id: string, currentStarred: bool)
    requires forall i :: 0 <= i < |ideas| && ideas[i].id == id ==> ideas[i].isStarred == currentStarred
    ensures ToggleStar(ToggleStar(ideas, id, currentStarred), id, !currentStarred) == ideas
  {
    if ideas != [] {
      ToggleStarTwice(ideas[1..], id, currentStarred);
    }
  }

  datatype SaveOutcome =
    | Required     // "Name and Product Type are required"
    | Failed       // the save or update threw
    | Created(fields: IdeaFields, userId: string)
    | Updated(fields: IdeaFields, id: Option<string>)

  /** handleSave: validate, then insert the normalised fields with the user id. */
  function SaveSpec(form: IdeaForm, user: Option<string>, insertOk: bool): (r: SaveOutcome)
    ensures r.Required? <==> Normalise(form).None?
    ensures r.Failed? <==> Normalise(form).Some? && (user.None? || !insertOk)
    ensures r.Created? ==> r.fields == Normalise(form).value && Some(r.userId) == user
    ensures !r.Updated?
  {
    match Normalise(form)
    case None => Required
    case Some(f) => if user.None? || !insertOk then Failed else Created(f, user.value)
  }

  /** handleUpdate: validate, then update the row with the editing id. */
  function UpdateSpec(form: IdeaForm, editingId: Option<string>, updateOk: bool): (r: SaveOutcome)
    ensures r.Required? <==> Normalise(form).None?
    ensures r.Failed? <==> Normalise(form).Some? && !updateOk
    ensures r.Updated? ==> r.fields == Normalise(form).value && r.id == editingId
    ensures !r.Created?
  {
    match Normalise(form)
    case None => Required
    case Some(f) => if !updateOk then Failed else Updated(f, editingId)
  }

  /** The table's state. */
  class Table {
    var showNewRow: bool
    var editingId: Option<string>
    var newIdea: IdeaForm
    var editData: IdeaForm
    var pageSize: nat
    var currentPage: nat

    ghost predicate Valid()
      reads this
    {
      pageSize > 0 && currentPage >= 1
    }

    constructor ()
      ensures Valid() && !showNewRow && editingId == None && newIdea == EmptyForm && editData == EmptyForm
      ensures pageSize == 10 && currentPage == 1
    {
      showNewRow, editingId, newIdea, editData := false, None, EmptyForm, EmptyForm;
      pageSize, currentPage := 10, 1;
    }

    /** The rows on the current page. */
    function Visible(ideas: seq<IdeaItem>): (r: seq<IdeaItem>)
      reads this
      requires Valid()
      ensures |r| <= pageSize
      ensures r == PageOf(ideas, currentPage, pageSize)
    {
      PageOf(ideas, currentPage, pageSize)
    }

    method Previous()
      requires Valid()
      modifies this
      ensures Valid() && currentPage == PrevPage(old(currentPage))
      ensures pageSize == old(pageSize) && editingId == old(editingId) && showNewRow == old(showNewRow)
      ensures newIdea == old(newIdea) && editData == old(editData)
    {
      currentPage := PrevPage(currentPage);
    }

    method Next(n: nat)
      requires Valid()
      modifies this
      ensures Valid() && currentPage == NextPage(old(currentPage), TotalPages(n, pageSize))
      ensures pageSize == old(pageSize) && editingId == old(editingId) && showNewRow == old(showNewRow)
      ensures newIdea == old(newIdea) && editData == old(editData)
    {
      currentPage := NextPage(currentPage, TotalPages(n, pageSize));
    }

    /** A numbered page link. */
    method GoTo(page: nat)
      requires Valid() && page >= 1
      modifies this
      ensures Valid() && currentPage == page && pageSize == old(pageSize)
      ensures editingId == old(editingId) && showNewRow == old(showNewRow)
      ensures newIdea == old(newIdea) && editData == old(editData)
    {
      currentPage := page;
    }

    /** Choosing a page size goes back to page 1. */
    method SetPageSize(size: nat)
      requires Valid() && size > 0
      modifies this
      ensures Valid() && pageSize == size && currentPage == 1
      ensures editingId == old(editingId) && showNewRow == old(showNewRow)
      ensures newIdea == old(newIdea) && editData == old(editData)
    {
      pageSize, currentPage := size, 1;
    }

    method AddNew()
      requires Valid()
      modifies this
      ensures Valid() && showNewRow && newIdea == EmptyForm
      ensures editingId == old(editingId) && editData == old(editData)
      ensures pageSize == old(pageSize) && currentPage == old(currentPage)
    {
      showNewRow, newIdea := true, EmptyForm;
    }

    method Edit(idea: IdeaItem)
      requires Valid()
      modifies this
      ensures Valid() && editingId == Some(idea.id) && editData == EditFormOf(idea)
      ensures showNewRow == old(showNewRow) && newIdea == old(newIdea)
      ensures pageSize == old(pageSize) && currentPage == old(currentPage)
    {
      editingId, editData := Some(idea.id), EditFormOf(idea);
    }

    /** handleSave: a successful insert hides the new row; nothing else changes. */
    method Save(user: Option<string>, insertOk: bool) returns (r: SaveOutcome)
      requires Valid()
      modifies this`showNewRow
      ensures Valid() && r == SaveSpec(newIdea, user, insertOk)
      ensures showNewRow == (if r.Created? then false else old(showNewRow))
    {
      r := SaveSpec(newIdea, user, insertOk);
      if r.Created? {
        showNewRow := false;
      }
    }

    /** handleUpdate: a successful update ends the editing; nothing else changes. */
    method Update(updateOk: bool) returns (r: SaveOutcome)
      requires Valid()
      modifies this`editingId
      ensures Valid() && r == UpdateSpec(editData, old(editingId), updateOk)
      ensures editingId == (if r.Updated? then None else old(editingId))
    {
      r := UpdateSpec(editData, editingId, updateOk);
      if r.Updated? {
        editingId := None;
      }
    }

    method Cancel()
      requires Valid()
      modifies this
      ensures Valid() && !showNewRow && editingId == None && newIdea == EmptyForm
      ensures editData == old(editData) && pageSize == old(pageSize) && currentPage == old(currentPage)
    {
      showNewRow, editingId, newIdea := false, None, EmptyForm;
    }
  }
}
