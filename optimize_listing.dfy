/** The listing optimiser: the colour bands of analysis scores, the listing
    being edited and the single-field save, and the order of the writes an
    analysis run makes. */
module OptimizeListing {
  import opened Common

  // ------------------------------------------------------------ score bands

  datatype Band = Green | Yellow | Red

  /** The band of a score: 8 and above, 6 up to 8, below 6. */
  function BandOf(score: real): (b: Band)
    ensures b == Green <==> score >= 8.0
    ensures b == Yellow <==> 6.0 <= score < 8.0
    ensures b == Red <==> score < 6.0
  {
    if score >= 8.0 then Green else if score >= 6.0 then Yellow else Red
  }

  function BandRank(b: Band): nat {
    match b
    case Red => 0
    case Yellow => 1
    case Green => 2
  }

  /** A higher score never falls in a lower band. */
  lemma BandMonotone(s: real, t: real)
    requires s <= t
    ensures BandRank(BandOf(s)) <= BandRank(BandOf(t))
  {
  }

  /** getScoreColor. */
  function ScoreColor(score: real): string {
    if score >= 8.0 then "text-green-600"
    else if score >= 6.0 then "text-yellow-600"
    else "text-red-600"
  }

  /** getScoreBadge. */
  function ScoreBadge(score: real): string {
    if score >= 8.0 then "bg-green-50 text-green-700 border-green-200"
    else if score >= 6.0 then "bg-yellow-50 text-yellow-700 border-yellow-200"
    else "bg-red-50 text-red-700 border-red-200"
  }

  /** The text colour of each band. */
  function BandColor(b: Band): string {
    match b
    case Green => "text-green-600"
    case Yellow => "text-yellow-600"
    case Red => "text-red-600"
  }

  /** The badge classes of each band. */
  function BandBadge(b: Band): string {
    match b
    case Green => "bg-green-50 text-green-700 border-green-200"
    case Yellow => "bg-yellow-50 text-yellow-700 border-yellow-200"
    case Red => "bg-red-50 text-red-700 border-red-200"
  }

  /** The text colour and the badge of a score both follow its band, so they
      never disagree on which band a score is in. */
  lemma ColorAndBadgeAgree(score: real)
    ensures ScoreColor(score) == BandColor(BandOf(score))
    ensures ScoreBadge(score) == BandBadge(BandOf(score))
  {
  }

  lemma BandColorsDistinct(b: Band, c: Band)
    requires b != c
    ensures BandColor(b) != BandColor(c) && BandBadge(b) != BandBadge(c)
  {
    BandLengths(b);
    BandLengths(c);
  }

  /** The colour names differ in length, and so do the colours and badges built on them. */
  function NameLength(b: Band): nat {
    match b
    case Green => 5
    case Yellow => 6
    case Red => 3
  }

  lemma BandLengths(b: Band)
    ensures |BandColor(b)| == 9 + NameLength(b)
    ensures |BandBadge(b)| == 28 + 3 * NameLength(b)
  {
    match b
    case Green =>
    case Yellow =>
    case Red =>
  }

  // ---------------------------------------------------------------- editing

  datatype Listing = Listing(id: string, title: string, description: string, price: Option<real>, externalId: string)

  /** The edit inputs; price is parseFloat of its input (None for NaN). */
  datatype EditValues = EditValues(title: string, description: string, price: Option<real>)

  const NoEditValues := EditValues("", "", None)

  /** The fields that have an edit button. */
  datatype EditField = TitleField | DescriptionField | PriceField

  datatype FieldValue = Text(s: string) | Price(p: Option<real>)

  function ListingValue(l: Listing, f: EditField): FieldValue {
    match f
    case TitleField => Text(l.title)
    case DescriptionField => Text(l.description)
    case PriceField => Price(l.price)
  }

  function EditValue(v: EditValues, f: EditField): FieldValue {
    match f
    case TitleField => Text(v.title)
    case DescriptionField => Text(v.description)
    case PriceField => Price(v.price)
  }

  /** `{ ...listing, [field]: editValues[field] }`. */
  function MergeField(l: Listing, v: EditValues, f: EditField): (r: Listing)
    ensures r.id == l.id && r.externalId == l.externalId
    ensures ListingValue(r, f) == EditValue(v, f)
    ensures forall g :: g != f ==> ListingValue(r, g) == ListingValue(l, g)
  {
    match f
    case TitleField => l.(title := v.title)
    case DescriptionField => l.(description := v.description)
    case PriceField => l.(price := v.price)
  }

  /** Saving a field whose input still holds the listing's value changes nothing. */
  lemma MergeUnchangedField(l: Listing, v: EditValues, f: EditField)
    requires EditValue(v, f) == ListingValue(l, f)
    ensures MergeField(l, v, f) == l
  {
  }

  /** The edit inputs a selected listing starts with. */
  function ValuesOf(l: Listing): (v: EditValues)
    ensures forall f :: EditValue(v, f) == ListingValue(l, f)
  {
    EditValues(l.title, l.description, l.price)
  }

  /** The first listing with that id. */
  function FindListing(listings: seq<Listing>, id: string): (r: Option<Listing>)
    ensures r.None? <==> forall l :: l in listings ==> l.id != id
    ensures r.Some? ==> r.value in listings && r.value.id == id
  {
    if listings == [] then None
    else if listings[0].id == id then Some(listings[0])
    else FindListing(listings[1..], id)
  }

  // --------------------------------------------------------------- analysis

  /** The writes and calls runAnalysis makes, in order. */
  datatype Effect =
    | InsertOptimization(listingId: string, originalData: Listing, status: string, userId: Option<string>)
    | InvokeAnalysis(listing: Listing)
    | UpdateOptimization(optimizationId: string, analysisResults: Option<Json>, status: string)

  /** `response.data.analysis`: None when it throws (a null body), Some of
      the field (itself None when absent) otherwise. */
  function AnalysisOf(data: Json): (r: Option<Option<Json>>)
    ensures data.JNull? <==> r.None?
    ensures data.JObject? ==> r == Some(Field(data.entries, "analysis"))
  {
    match data
    case JNull => None
    case JObject(es) => Some(Field(es, "analysis"))
    case _ => Some(None)
  }

  datatype AnalysisRun = AnalysisRun(effects: seq<Effect>, results: Option<Option<Json>>, succeeded: bool)

  /** runAnalysis given the outcomes of the insert (the new record's id),
      of the function call and of reading its body. */
  function RunAnalysis(selected: Option<Listing>, userId: Option<string>, created: Result<string>,
                       response: Result<Json>): (r: AnalysisRun)
    ensures selected.None? ==> r.effects == [] && r.results.None? && !r.succeeded
    ensures selected.Some? ==>
              |r.effects| >= 1 && r.effects[0] == InsertOptimization(selected.value.id, selected.value, "analyzing", userId)
    ensures created.Err? ==> |r.effects| <= 1 && !r.succeeded
    ensures selected.Some? && created.Ok? ==> |r.effects| >= 2 && r.effects[1] == InvokeAnalysis(selected.value)
    ensures r.succeeded <==> |r.effects| == 3
    ensures r.succeeded <==> selected.Some? && created.Ok? && response.Ok? && AnalysisOf(response.value).Some?
    ensures r.succeeded ==> r.effects[2] == UpdateOptimization(created.value, AnalysisOf(response.value).value, "completed")
    ensures r.succeeded ==> r.results == AnalysisOf(response.value)
    ensures !r.succeeded ==> r.results.None?
  {
    match selected
    case None => AnalysisRun([], None, false)
    case Some(l) =>
      var insert := InsertOptimization(l.id, l, "analyzing", userId);
      match created
      case Err(_) => AnalysisRun([insert], None, false)
      case Ok(optId) =>
        var invoke := InvokeAnalysis(l);
        match response
        case Err(_) => AnalysisRun([insert, invoke], None, false)
        case Ok(data) =>
          match AnalysisOf(data)
          case None => AnalysisRun([insert, invoke], None, false)
          case Some(analysis) =>
            AnalysisRun([insert, invoke, UpdateOptimization(optId, analysis, "completed")], Some(analysis), true)
  }

  function IsCompletion(e: Effect): bool {
    e.UpdateOptimization? && e.status == "completed"
  }

  /** The record is marked completed at most once, only as the last write,
      and only after the record was created as 'analyzing' and the call was made. */
  lemma CompletedOnlyAfterSuccess(selected: Option<Listing>, userId: Option<string>, created: Result<string>,
                                  response: Result<Json>, k: nat)
    requires var r := RunAnalysis(selected, userId, created, response); k < |r.effects| && IsCompletion(r.effects[k])
    ensures var r := RunAnalysis(selected, userId, created, response);
            k == 2 && r.succeeded && response.Ok? && r.effects[0].InsertOptimization? &&
            r.effects[0].status == "analyzing" && r.effects[1].InvokeAnalysis?
  {
  }

  // ------------------------------------------------------------------ state

  /** The page's state. */
  class Page {
    var listings: seq<Listing>
    var selectedListing: Option<Listing>
    var editValues: EditValues
    var editingField: Option<EditField>
    var analysisResults: Option<Json>
    var analyzing: bool

    constructor (loaded: seq<Listing>)
      ensures listings == loaded && selectedListing.None? && editValues == NoEditValues
      ensures editingField.None? && analysisResults.None? && !analyzing
    {
      listings := loaded;
      selectedListing := None;
      editValues := NoEditValues;
      editingField := None;
      analysisResults := None;
      analyzing := false;
    }

    /** handleListingSelect: a known id selects that listing and loads its
        values into the inputs; an unknown id changes nothing. */
    method SelectListing(id: string)
      modifies this`selectedListing, this`editValues
      ensures FindListing(listings, id).None? ==> selectedListing == old(selectedListing) && editValues == old(editValues)
      ensures FindListing(listings, id).Some? ==>
                selectedListing == FindListing(listings, id) && editValues == ValuesOf(selectedListing.value)
    {
      match FindListing(listings, id) {
        case None =>
        case Some(l) =>
          selectedListing := Some(l);
          editValues := ValuesOf(l);
      }
    }

    method Edit(f: EditField)
      modifies this`editingField
      ensures editingField == Some(f)
    {
      editingField := Some(f);
    }

    /** handleSave given the update's error, if any: without a selected
        listing nothing is sent; otherwise the one field is written, and on
        success merged into the selected listing and the edit closed. */
    method Save(f: EditField, updateError: Option<string>) returns (sent: Option<(string, FieldValue)>)
      modifies this`selectedListing, this`editingField
      ensures old(selectedListing).None? ==> sent.None? && selectedListing == old(selectedListing) &&
                                             editingField == old(editingField)
      ensures old(selectedListing).Some? ==> sent == Some((old(selectedListing).value.id, EditValue(editValues, f)))
      ensures old(selectedListing).Some? && updateError.None? ==>
                selectedListing == Some(MergeField(old(selectedListing).value, editValues, f)) && editingField.None?
      ensures updateError.Some? ==> selectedListing == old(selectedListing) && editingField == old(editingField)
    {
      sent := None;
      if selectedListing.Some? {
        sent := Some((selectedListing.value.id, EditValue(editValues, f)));
        if updateError.None? {
          selectedListing := Some(MergeField(selectedListing.value, editValues, f));
          editingField := None;
        }
      }
    }

    /** runAnalysis: the writes it makes; the results shown are replaced only
        by a successful run, and the spinner is off afterwards. */
    method Analyse(userId: Option<string>, created: Result<string>, response: Result<Json>) returns (effects: seq<Effect>)
      modifies this`analysisResults, this`analyzing
      ensures effects == RunAnalysis(selectedListing, userId, created, response).effects
      ensures RunAnalysis(selectedListing, userId, created, response).results.Some? ==>
                analysisResults == RunAnalysis(selectedListing, userId, created, response).results.value
      ensures RunAnalysis(selectedListing, userId, created, response).results.None? ==> analysisResults == old(analysisResults)
      ensures selectedListing.Some? ==> !analyzing
      ensures selectedListing.None? ==> analyzing == old(analyzing)
    {
      var run := RunAnalysis(selectedListing, userId, created, response);
      effects := run.effects;
      if selectedListing.Some? {
        analyzing := true;
        if run.results.Some? {
          analysisResults := run.results.value;
        }
        analyzing := false;
      }
    }
  }
}
