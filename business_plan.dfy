/** The business-plan function: the prompt it sends (the caller's template
    with the form's fields filled in, or a default prompt that lists them),
    and the body it returns (the model's plan when it parses, a fixed
    fallback plan when it does not, an error when the provider fails). */
module BusinessPlan {
  import opened Common
  import NewPlanPage

  datatype PlanRequest = PlanRequest(formData: NewPlanPage.PlanForm, context: Option<string>, customPrompt: Option<string>)

  /** `context || 'small business'`. */
  function ContextText(context: Option<string>): (r: string)
    ensures Present(context) ==> r == context.value
    ensures !Present(context) ==> r == "small business"
  {
    if Present(context) then context.value else "small business"
  }

  /** The text between the business and the plan's details in the default prompt. */
  const DetailsHeading := ". \n\nBased on the following information, create a detailed, actionable business plan:\n\nPlan Details:\n"

  /** The default prompt's pieces; `instructions` is the fixed request for the
      plan's JSON structure that closes it. */
  function DefaultPromptParts(context: Option<string>, f: NewPlanPage.PlanForm, instructions: string): (r: seq<string>)
    ensures |r| == 22
  {
    ["You are a business planning expert for a ", ContextText(context),
     DetailsHeading,
     "- Title: ", f.title, "\n",
     "- Main Goal: ", f.goal, "\n",
     "- Timeline: ", f.timeline, "\n",
     "- Budget: ", f.budget, "\n",
     "- Target Audience: ", f.targetAudience, "\n",
     "- Description: ", f.description, "\n\n",
     instructions]
  }

  /** The prompt: the custom template with its placeholders filled when one is
      given, the default prompt otherwise. */
  function Prompt(req: PlanRequest, instructions: string): string {
    if Present(req.customPrompt) then NewPlanPage.FillPlaceholders(req.customPrompt.value, req.formData)
    else Concat(DefaultPromptParts(req.context, req.formData, instructions))
  }

  /** The default prompt names the business, defaulting to a small business,
      and lists every field under its label. */
  lemma DefaultPromptListsFields(req: PlanRequest, instructions: string)
    requires !Present(req.customPrompt)
    ensures var p := Prompt(req, instructions);
            var f := req.formData;
            Contains(p, "You are a business planning expert for a " + ContextText(req.context)) &&
            Contains(p, "- Title: " + f.title) && Contains(p, "- Main Goal: " + f.goal) &&
            Contains(p, "- Timeline: " + f.timeline) && Contains(p, "- Budget: " + f.budget) &&
            Contains(p, "- Target Audience: " + f.targetAudience) && Contains(p, "- Description: " + f.description)
  {
    var parts := DefaultPromptParts(req.context, req.formData, instructions);
    assert Prompt(req, instructions) == Concat(parts);
    assert Contains(Concat(parts), parts[0] + parts[1]) by { ConcatContainsPair(parts, 0); }
    assert Contains(Concat(parts), parts[3] + parts[4]) by { ConcatContainsPair(parts, 3); }
    assert Contains(Concat(parts), parts[6] + parts[7]) by { ConcatContainsPair(parts, 6); }
    assert Contains(Concat(parts), parts[9] + parts[10]) by { ConcatContainsPair(parts, 9); }
    assert Contains(Concat(parts), parts[12] + parts[13]) by { ConcatContainsPair(parts, 12); }
    assert Contains(Concat(parts), parts[15] + parts[16]) by { ConcatContainsPair(parts, 15); }
    assert Contains(Concat(parts), parts[18] + parts[19]) by { ConcatContainsPair(parts, 18); }
  }

  /** A custom template holding each placeholder once is filled field by field,
      each field with its `$` patterns expanded. */
  lemma CustomPromptFilled(req: PlanRequest, instructions: string, seg: seq<string>)
    requires |seg| == 7 && req.customPrompt == Some(NewPlanPage.Template(seg))
    requires forall k :: 0 <= k < 7 ==> '{' !in seg[k]
    requires var f := req.formData;
             '{' !in f.title && '{' !in f.goal && '{' !in f.timeline && '{' !in f.budget && '{' !in f.targetAudience
    requires NewPlanPage.FieldsQuoteNothing(req.formData)
    ensures Prompt(req, instructions) == NewPlanPage.Filled(seg, NewPlanPage.ExpandedFields(req.formData))
    ensures NewPlanPage.NoDollar(req.formData) ==> Prompt(req, instructions) == NewPlanPage.Filled(seg, req.formData)
  {
    assert |NewPlanPage.Template(seg)| > 0;
    NewPlanPage.FillTemplate(seg, req.formData);
  }

  /** A text without a '{' holds no placeholder, so filling it changes nothing. */
  lemma FillWithoutPlaceholders(s: string, f: NewPlanPage.PlanForm)
    requires '{' !in s
    ensures NewPlanPage.FillPlaceholders(s, f) == s
  {
    ReplaceAbsent(s, "{title}", f.title);
    ReplaceAbsent(s, "{goal}", f.goal);
    ReplaceAbsent(s, "{timeline}", f.timeline);
    ReplaceAbsent(s, "{budget}", f.budget);
    ReplaceAbsent(s, "{target_audience}", f.targetAudience);
    ReplaceAbsent(s, "{description}", f.description);
  }

  /** The new-plan page sends its template already filled; when neither the
      template's text nor the fields hold a '{', and no field quotes the
      template, the function sends that very text on. */
  lemma PageFilledPromptUnchanged(seg: seq<string>, f: NewPlanPage.PlanForm, context: Option<string>, instructions: string)
    requires |seg| == 7 && forall k :: 0 <= k < 7 ==> '{' !in seg[k]
    requires '{' !in f.title && '{' !in f.goal && '{' !in f.timeline && '{' !in f.budget && '{' !in f.targetAudience
    requires '{' !in f.description && NewPlanPage.FieldsQuoteNothing(f)
    requires NewPlanPage.Filled(seg, NewPlanPage.ExpandedFields(f)) != ""
    ensures var sent := NewPlanPage.FillPlaceholders(NewPlanPage.Template(seg), f);
            Prompt(PlanRequest(f, context, Some(sent)), instructions) == sent
  {
    NewPlanPage.FillTemplate(seg, f);
    var filled := NewPlanPage.Filled(seg, NewPlanPage.ExpandedFields(f));
    assert '{' !in filled;
    FillWithoutPlaceholders(filled, f);
  }

  // ------------------------------------------------------------ fallback

  const FallbackSummaries: seq<(string, string)> := [
    ("planSummary", "This plan aims to achieve your business goals through strategic planning and execution."),
    ("timelineBreakdown", "Please regenerate for a detailed timeline based on your specific inputs."),
    ("marketingStrategy", "Marketing approach will be tailored to your target audience and budget."),
    ("operationalConsiderations", "Operational planning will focus on efficiency and resource optimization."),
    ("risksConstraints", "Consider potential bottlenecks and resource limitations."),
    ("keyMetrics", "Track progress through relevant KPIs and success metrics.")
  ]

  /** The fallback's tasks as (title, description). */
  const FallbackTasks: seq<(string, string)> := [
    ("Market Research and Analysis",
     "Conduct thorough market research to understand your target audience, competitors, and market opportunities. Analyze pricing strategies and identify your unique value proposition."),
    ("Business Model Validation",
     "Validate your business model by testing key assumptions. Create prototypes or MVP versions of your products/services and gather feedback from potential customers."),
    ("Financial Planning and Budgeting",
     "Develop detailed financial projections including startup costs, operational expenses, revenue forecasts, and break-even analysis. Set up accounting systems and financial tracking."),
    ("Brand Development and Positioning",
     "Create a strong brand identity including logo, messaging, and visual elements. Develop your brand positioning strategy to differentiate from competitors."),
    ("Marketing Strategy Development",
     "Create a comprehensive marketing plan including digital marketing, social media strategy, content marketing, and customer acquisition tactics within your budget."),
    ("Operational Framework Setup",
     "Establish operational processes, supply chain management, quality control procedures, and workflow systems to ensure smooth business operations."),
    ("Legal and Compliance Requirements",
     "Research and complete all necessary legal requirements including business registration, permits, licenses, insurance, and compliance with industry regulations."),
    ("Launch Preparation and Execution",
     "Plan and execute your launch strategy including soft launch testing, marketing campaigns, inventory preparation, and customer support systems.")
  ]

  function TaskObject(t: (string, string)): Json {
    JObject([("title", JString(t.0)), ("description", JString(t.1))])
  }

  /** One task object per (title, description) pair, in order. */
  function TaskObjects(ts: seq<(string, string)>): seq<Json> {
    seq(|ts|, i requires 0 <= i < |ts| => TaskObject(ts[i]))
  }

  /** One string entry per (key, text) pair, in order. */
  function StringEntries(kvs: seq<(string, string)>): seq<(string, Json)> {
    seq(|kvs|, i requires 0 <= i < |kvs| => (kvs[i].0, JString(kvs[i].1)))
  }

  /** A plan object: the text fields, then the tasks. */
  function PlanObject(texts: seq<(string, string)>, tasks: seq<(string, string)>): Json {
    JObject(StringEntries(texts) + [("tasks", JArray(TaskObjects(tasks)))])
  }

  /** The plan returned when the model's content does not parse. */
  const FallbackPlan: Json := PlanObject(FallbackSummaries, FallbackTasks)

  /** The seven fields of a plan, in the order the function writes them. */
  const PlanKeys: seq<string> := ["planSummary", "timelineBreakdown", "marketingStrategy", "operationalConsiderations",
                                  "risksConstraints", "keyMetrics", "tasks"]

  /** A task object with a title and a description, both non-empty strings. */
  predicate CompleteTask(t: Json) {
    t.JObject? &&
    (var title := Field(t.entries, "title"); title.Some? && title.value.JString? && title.value.s != "") &&
    (var d := Field(t.entries, "description"); d.Some? && d.value.JString? && d.value.s != "")
  }

  lemma FallbackTextsNonEmpty(k: nat)
    requires k < 6
    ensures FallbackSummaries[k].1 != ""
  {
    assert |FallbackSummaries[k].1| > 0;
  }

  /** Every fallback task has a title and a description. */
  lemma FallbackTaskTexts(i: nat)
    requires i < 8
    ensures FallbackTasks[i].0 != "" && FallbackTasks[i].1 != ""
  {
    assert |FallbackTasks[i].0| > 0 && |FallbackTasks[i].1| > 0;
  }

  /** A task built from a non-empty title and description is complete. */
  lemma TaskObjectComplete(t: (string, string))
    requires t.0 != "" && t.1 != ""
    ensures CompleteTask(TaskObject(t))
  {
    assert Field(TaskObject(t).entries, "title") == Some(JString(t.0));
    assert Field(TaskObject(t).entries, "description") == Some(JString(t.1));
  }

  /** The shape of a plan object built from six named texts and eight tasks. */
  lemma PlanObjectShape(texts: seq<(string, string)>, tasks: seq<(string, string)>)
    requires |texts| == 6 && |tasks| == 8
    ensures var p := PlanObject(texts, tasks);
            p.JObject? && |p.entries| == 7 && p.entries[6].0 == "tasks" &&
            (forall k :: 0 <= k < 6 ==> p.entries[k] == (texts[k].0, JString(texts[k].1))) &&
            p.entries[6].1.JArray? && |p.entries[6].1.items| == 8 &&
            forall i :: 0 <= i < 8 ==> p.entries[6].1.items[i] == TaskObject(tasks[i])
  {
  }

  /** A plan built from the six plan keys with non-empty texts and from eight
      tasks with non-empty texts has every field in order and complete tasks. */
  lemma CompletePlan(texts: seq<(string, string)>, tasks: seq<(string, string)>)
    requires |texts| == 6 && |tasks| == 8
    requires forall k :: 0 <= k < 6 ==> texts[k].0 == PlanKeys[k] && texts[k].1 != ""
    requires forall i :: 0 <= i < 8 ==> tasks[i].0 != "" && tasks[i].1 != ""
    ensures var p := PlanObject(texts, tasks);
            p.JObject? && |p.entries| == 7 &&
            (forall k :: 0 <= k < 7 ==> p.entries[k].0 == PlanKeys[k]) &&
            (forall k :: 0 <= k < 6 ==> p.entries[k].1.JString? && p.entries[k].1.s != "") &&
            p.entries[6].1.JArray? && |p.entries[6].1.items| == 8 &&
            forall i :: 0 <= i < 8 ==> CompleteTask(p.entries[6].1.items[i])
  {
    PlanObjectShape(texts, tasks);
    var p := PlanObject(texts, tasks);
    forall i | 0 <= i < 8
      ensures CompleteTask(p.entries[6].1.items[i])
    {
      TaskObjectComplete(tasks[i]);
    }
  }

  lemma FallbackKeys(k: nat)
    requires k < 6
    ensures FallbackSummaries[k].0 == PlanKeys[k]
  {
  }

  /** The fallback has all seven fields in order: six non-empty texts and
      eight complete tasks. */
  lemma FallbackShape()
    ensures var p := FallbackPlan;
            p.JObject? && |p.entries| == 7 &&
            (forall k :: 0 <= k < 7 ==> p.entries[k].0 == PlanKeys[k]) &&
            (forall k :: 0 <= k < 6 ==> p.entries[k].1.JString? && p.entries[k].1.s != "") &&
            p.entries[6].1.JArray? && |p.entries[6].1.items| == 8 &&
            forall i :: 0 <= i < 8 ==> CompleteTask(p.entries[6].1.items[i])
  {
    forall k | 0 <= k < 6
      ensures FallbackSummaries[k].0 == PlanKeys[k] && FallbackSummaries[k].1 != ""
    {
      FallbackTextsNonEmpty(k);
      FallbackKeys(k);
    }
    forall i | 0 <= i < 8
      ensures FallbackTasks[i].0 != "" && FallbackTasks[i].1 != ""
    {
      FallbackTaskTexts(i);
    }
    CompletePlan(FallbackSummaries, FallbackTasks);
  }

  // ------------------------------------------------------------ handler

  /** The 500 answer: a fixed error with the thrown message as details. */
  function ErrorBody(details: string): Json {
    JObject([("error", JString("Failed to generate business plan")), ("details", JString(details))])
  }

  /** The body of a 200 answer: the parsed content, or the fallback plan when
      it does not parse. */
  method ContentBody(text: string, parse: string -> Option<Json>) returns (body: Json)
    ensures parse(text).Some? ==> body == parse(text).value
    ensures parse(text).None? ==> body == FallbackPlan
  {
    match parse(text) {
      case Some(j) => body := j;
      case None => body := FallbackPlan;
    }
  }

  /** The handler given the provider's answer; `parse` is JSON.parse (None when it throws). */
  method GenerateBusinessPlan(req: PlanRequest, instructions: string, upstream: Upstream, parse: string -> Option<Json>)
    returns (prompt: string, response: HttpResponse)
    ensures prompt == Prompt(req, instructions)
    ensures response.status == 200 <==> upstream.Content?
    ensures upstream.NotOk? ==> response == HttpResponse(500, ErrorBody("OpenAI API error: " + upstream.status))
    ensures upstream.Content? && parse(upstream.text).Some? ==> response == HttpResponse(200, parse(upstream.text).value)
    ensures upstream.Content? && parse(upstream.text).None? ==> response == HttpResponse(200, FallbackPlan)
  {
    prompt := Prompt(req, instructions);
    if upstream.NotOk? {
      return prompt, HttpResponse(500, ErrorBody("OpenAI API error: " + upstream.status));
    }
    var body := ContentBody(upstream.text, parse);
    response := HttpResponse(200, body);
  }
}
