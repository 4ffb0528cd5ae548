/** The listing-analysis function: the prompt that describes the listing to
    the model, and the `{ analysis }` body it returns, whether or not the
    model's content parses. */
module AnalyzeListing {
  import opened Common

  /** The listing fields the prompt reads, as JSON values (absent is None). */
  datatype ListingData = ListingData(title: Option<Json>, description: Option<Json>, price: Option<Json>, tags: Option<Json>)

  /** A value interpolated into a template literal. */
  function Interpolated(v: Option<Json>): (r: string)
    ensures v.None? ==> r == "undefined"
    ensures v.Some? ==> r == JsString(v.value)
  {
    if v.Some? then JsString(v.value) else "undefined"
  }

  /** `listingData.tags || 'Not provided'`. */
  function TagsText(tags: Option<Json>): (r: string)
    ensures !Truthy(tags) ==> r == "Not provided"
    ensures Truthy(tags) ==> r == JsString(tags.value)
  {
    if Truthy(tags) then JsString(tags.value) else "Not provided"
  }

  /** The opening of the prompt, before the listing's data. */
  const Intro := "\nYou are an Etsy SEO and marketplace optimization expert. Analyze this Etsy listing and provide detailed recommendations:\n\nListing Data:\n"

  /** The prompt's pieces; `instructions` is the fixed list of aspects and the
      JSON structure requested that follows the listing's data. */
  function PromptParts(l: ListingData, instructions: string): (r: seq<string>)
    ensures |r| == 14
  {
    [Intro,
     "- Title: ", Interpolated(l.title), "\n",
     "- Description: ", Interpolated(l.description), "\n",
     "- Price: $", Interpolated(l.price), "\n",
     "- Tags/Keywords: ", TagsText(l.tags), "\n\n",
     instructions]
  }

  function Prompt(l: ListingData, instructions: string): string {
    Concat(PromptParts(l, instructions))
  }

  /** The prompt lists the title, description, price and tags under their
      labels, which read "Not provided" when there are no tags. */
  lemma PromptListsListing(l: ListingData, instructions: string)
    ensures var p := Prompt(l, instructions);
            Contains(p, "- Title: " + Interpolated(l.title)) && Contains(p, "- Description: " + Interpolated(l.description)) &&
            Contains(p, "- Price: $" + Interpolated(l.price)) && Contains(p, "- Tags/Keywords: " + TagsText(l.tags))
  {
    var parts := PromptParts(l, instructions);
    ConcatContainsPair(parts, 1);
    ConcatContainsPair(parts, 4);
    ConcatContainsPair(parts, 7);
    ConcatContainsPair(parts, 10);
  }

  /** Without tags the prompt says they were not provided. */
  lemma MissingTagsNotProvided(l: ListingData, instructions: string)
    requires !Truthy(l.tags)
    ensures Contains(Prompt(l, instructions), "- Tags/Keywords: " + "Not provided")
  {
    PromptListsListing(l, instructions);
  }

  /** The analysis when the content does not parse: a fixed error and the exact text. */
  function ParseFailure(text: string): Json {
    JObject([("error", JString("Failed to parse AI response")), ("rawResponse", JString(text))])
  }

  /** The analysis: the parsed content, or the parse failure. */
  function Analysis(text: string, parse: string -> Option<Json>): (r: Json)
    ensures parse(text).Some? ==> r == parse(text).value
    ensures parse(text).None? ==> r.JObject? && Field(r.entries, "error") == Some(JString("Failed to parse AI response")) &&
                                  Field(r.entries, "rawResponse") == Some(JString(text))
  {
    match parse(text)
    case Some(j) => j
    case None => ParseFailure(text)
  }

  /** The handler given the provider's answer (NotOk carries the status text);
      `parse` is JSON.parse (None when it throws). */
  method AnalyzeListing(l: ListingData, instructions: string, upstream: Upstream, parse: string -> Option<Json>)
    returns (prompt: string, response: HttpResponse)
    ensures prompt == Prompt(l, instructions)
    ensures response.status == 200 <==> upstream.Content?
    ensures upstream.NotOk? ==>
              response == HttpResponse(500, JObject([("error", JString("OpenAI API error: " + upstream.status))]))
    ensures upstream.Content? ==>
              response == HttpResponse(200, JObject([("analysis", Analysis(upstream.text, parse))]))
  {
    prompt := Prompt(l, instructions);
    if upstream.NotOk? {
      return prompt, HttpResponse(500, JObject([("error", JString("OpenAI API error: " + upstream.status))]));
    }
    var analysis: Json;
    match parse(upstream.text) {
      case Some(j) => analysis := j;
      case None => analysis := ParseFailure(upstream.text);
    }
    response := HttpResponse(200, JObject([("analysis", analysis)]));
  }
}
