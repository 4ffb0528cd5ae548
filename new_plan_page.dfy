/** The new-plan page: the brand prompt with the form's six fields filled
    in, the set of selected tasks of a generated plan, the rows a save
    writes, and the text a plan section is shown as. */
module NewPlanPage {
  import opened Common

  datatype PlanForm = PlanForm(title: string, goal: string, timeline: string, budget: string,
                               targetAudience: string, description: string)

  const EmptyPlanForm := PlanForm("", "", "", "", "", "")

  // ------------------------------------------------------------ placeholders

  /** The `.replace` chain: the first occurrence of each placeholder, in this
      order, replaced by the form field of the same name. */
  function FillPlaceholders(template: string, f: PlanForm): string {
    var t1 := ReplaceFirst(template, "{title}", f.title);
    var t2 := ReplaceFirst(t1, "{goal}", f.goal);
    var t3 := ReplaceFirst(t2, "{timeline}", f.timeline);
    var t4 := ReplaceFirst(t3, "{budget}", f.budget);
    var t5 := ReplaceFirst(t4, "{target_audience}", f.targetAudience);
    ReplaceFirst(t5, "{description}", f.description)
  }

  /** A template holding each placeholder once, in order, between seven literal segments. */
  function Template(seg: seq<string>): string
    requires |seg| == 7
  {
    seg[0] + ("{title}" + (seg[1] + ("{goal}" + (seg[2] + ("{timeline}" + (seg[3] + ("{budget}" + (seg[4]
    + ("{target_audience}" + (seg[5] + ("{description}" + seg[6])))))))))))
  }

  /** The text the template reads as with the six fields in the placeholders' places. */
  function Filled(seg: seq<string>, f: PlanForm): string
    requires |seg| == 7
  {
    seg[0] + f.title + seg[1] + f.goal + seg[2] + f.timeline + seg[3] + f.budget + seg[4]
    + f.targetAudience + seg[5] + f.description + seg[6]
  }

  lemma Regroup(p: string, v: string, s: string, pat: string, b: string)
    ensures p + v + (s + (pat + b)) == p + v + s + pat + b
  {
  }

  /** The fields as `replace` inserts them: each with its `$` patterns expanded. */
  function ExpandedFields(f: PlanForm): (e: PlanForm)
    ensures '{' !in f.title ==> '{' !in e.title
    ensures '{' !in f.goal ==> '{' !in e.goal
    ensures '{' !in f.timeline ==> '{' !in e.timeline
    ensures '{' !in f.budget ==> '{' !in e.budget
    ensures '{' !in f.targetAudience ==> '{' !in e.targetAudience
    ensures '{' !in f.description ==> '{' !in e.description
  {
    PlanForm(Expanded(f.title), Expanded(f.goal), Expanded(f.timeline), Expanded(f.budget),
             Expanded(f.targetAudience), Expanded(f.description))
  }

  /** No field holds `$&`, `` $` `` or `$'`, which would quote the partly filled template. */
  predicate FieldsQuoteNothing(f: PlanForm) {
    QuotesNothing(f.title) && QuotesNothing(f.goal) && QuotesNothing(f.timeline) && QuotesNothing(f.budget)
    && QuotesNothing(f.targetAudience) && QuotesNothing(f.description)
  }

  /** No field holds a '$'. */
  predicate NoDollar(f: PlanForm) {
    '$' !in f.title && '$' !in f.goal && '$' !in f.timeline && '$' !in f.budget
    && '$' !in f.targetAudience && '$' !in f.description
  }

  /** When no literal segment and no field but the last contains a '{', and no
      field quotes the template, every placeholder is replaced by its own field
      with its `$` patterns expanded, and nothing else changes; fields without
      a '$' go in verbatim. */
  lemma FillTemplate(seg: seq<string>, f: PlanForm)
    requires |seg| == 7
    requires forall k :: 0 <= k < 7 ==> '{' !in seg[k]
    requires '{' !in f.title && '{' !in f.goal && '{' !in f.timeline && '{' !in f.budget && '{' !in f.targetAudience
    requires FieldsQuoteNothing(f)
    ensures FillPlaceholders(Template(seg), f) == Filled(seg, ExpandedFields(f))
    ensures NoDollar(f) ==> FillPlaceholders(Template(seg), f) == Filled(seg, f)
  {
    var e := ExpandedFields(f);
    var b6 := seg[6];
    var b5 := seg[5] + ("{description}" + b6);
    var b4 := seg[4] + ("{target_audience}" + b5);
    var b3 := seg[3] + ("{budget}" + b4);
    var b2 := seg[2] + ("{timeline}" + b3);
    var b1 := seg[1] + ("{goal}" + b2);
    var p1 := seg[0];
    var p2 := p1 + e.title + seg[1];
    var p3 := p2 + e.goal + seg[2];
    var p4 := p3 + e.timeline + seg[3];
    var p5 := p4 + e.budget + seg[4];
    var p6 := p5 + e.targetAudience + seg[5];
    var t0 := Template(seg);
    Regroup([], p1, [], "{title}", b1);
    assert t0 == p1 + "{title}" + b1;
    ReplaceFirstAfterPrefix(p1, "{title}", b1, f.title);
    var t1 := ReplaceFirst(t0, "{title}", f.title);
    assert t1 == p1 + e.title + b1;
    Regroup(p1, e.title, seg[1], "{goal}", b2);
    assert '{' !in p2;
    ReplaceFirstAfterPrefix(p2, "{goal}", b2, f.goal);
    var t2 := ReplaceFirst(t1, "{goal}", f.goal);
    assert t2 == p2 + e.goal + b2;
    Regroup(p2, e.goal, seg[2], "{timeline}", b3);
    assert '{' !in p3;
    ReplaceFirstAfterPrefix(p3, "{timeline}", b3, f.timeline);
    var t3 := ReplaceFirst(t2, "{timeline}", f.timeline);
    assert t3 == p3 + e.timeline + b3;
    Regroup(p3, e.timeline, seg[3], "{budget}", b4);
    assert '{' !in p4;
    ReplaceFirstAfterPrefix(p4, "{budget}", b4, f.budget);
    var t4 := ReplaceFirst(t3, "{budget}", f.budget);
    assert t4 == p4 + e.budget + b4;
    Regroup(p4, e.budget, seg[4], "{target_audience}", b5);
    assert '{' !in p5;
    ReplaceFirstAfterPrefix(p5, "{target_audience}", b5, f.targetAudience);
    var t5 := ReplaceFirst(t4, "{target_audience}", f.targetAudience);
    assert t5 == p5 + e.targetAudience + b5;
    Regroup(p5, e.targetAudience, seg[5], "{description}", b6);
    assert '{' !in p6;
    ReplaceFirstAfterPrefix(p6, "{description}", b6, f.description);
  }

  /** A budget typed as `$$` reaches the prompt as a single `$`. */
  lemma BudgetDollars(seg: seq<string>, f: PlanForm)
    requires |seg| == 7 && forall k :: 0 <= k < 7 ==> '{' !in seg[k]
    requires '{' !in f.title && '{' !in f.goal && '{' !in f.timeline && '{' !in f.targetAudience
    requires NoDollar(f.(budget := ""))
    requires f.budget == "$$"
    ensures FillPlaceholders(Template(seg), f) == Filled(seg, f.(budget := "$"))
  {
    DollarPatterns("", "", "");
    assert ExpandedFields(f) == f.(budget := "$");
    FillTemplate(seg, f);
  }

  /** Generate is disabled while generating and while the title or the description is empty. */
  function GenerateDisabled(isGenerating: bool, f: PlanForm): (r: bool)
    ensures !r <==> !isGenerating && f.title != "" && f.description != ""
  {
    isGenerating || f.title == "" || f.description == ""
  }

  // ------------------------------------------------------------------ tasks

  /** `data.tasks?.map(...) || []` on the generated plan: the task list, none
      when `tasks` is missing or null, and None when the expression throws
      (a null plan, or a `tasks` value that is neither an array nor null). */
  function Tasks(data: Json): (r: Option<seq<Json>>)
    ensures data.JNull? ==> r.None?
    ensures data.JObject? && Field(data.entries, "tasks").Some? && Field(data.entries, "tasks").value.JArray? ==>
              r == Some(Field(data.entries, "tasks").value.items)
    ensures data.JObject? && (Field(data.entries, "tasks").None? || Field(data.entries, "tasks") == Some(JNull)) ==>
              r == Some([])
    ensures !data.JNull? && !data.JObject? ==> r == Some([])
  {
    match data
    case JNull => None
    case JObject(es) =>
      (match Field(es, "tasks")
       case None => Some([])
       case Some(JNull) => Some([])
       case Some(JArray(items)) => Some(items)
       case Some(_) => None)
    case _ => Some([])
  }

  /** 0, 1, ..., n - 1. */
  function AllIndices(n: nat): (r: seq<nat>)
    ensures |r| == n
    ensures forall i :: 0 <= i < n ==> r[i] == i
  {
    if n == 0 then [] else AllIndices(n - 1) + [n - 1]
  }

  lemma AllIndicesDistinct(n: nat)
    ensures Distinct(AllIndices(n))
  {
  }

  /** The checkbox handler on a set kept in insertion order: checking adds the
      index at the end unless it is there, unchecking removes it. */
  function ToggleTask(selected: seq<nat>, index: nat, checked: bool): (r: seq<nat>)
    ensures index in r <==> checked
    ensures forall j :: j != index ==> (j in r <==> j in selected)
    ensures Distinct(selected) ==> Distinct(r)
    ensures checked && index in selected ==> r == selected
    ensures checked && index !in selected ==> r == selected + [index]
  {
    if checked then
      if index in selected then selected
      else
        assert Distinct(selected) ==> Distinct(selected + [index]) by {
          if Distinct(selected) {
            var t := selected + [index];
            forall i, j | 0 <= i < j < |t|
              ensures t[i] != t[j]
            {
              assert t[i] == selected[i];
              if j < |selected| {
                assert t[j] == selected[j];
              }
            }
          }
        }
        selected + [index]
    else if Distinct(selected) then
      FilterDistinct(selected, (j: nat) => j != index);
      Filter(selected, (j: nat) => j != index)
    else Filter(selected, (j: nat) => j != index)
  }

  // ----------------------------------------------------------------- saving

  /** `task.title` / `task.description` of one task entry (undefined when the
      entry is not an object or has no such key). */
  function TaskField(task: Json, key: string): (r: Option<Json>)
    ensures !task.JObject? ==> r.None?
    ensures task.JObject? ==> r == Field(task.entries, key)
  {
    if task.JObject? then Field(task.entries, key) else None
  }

  datatype PlanRow = PlanRow(title: string, description: string, fieldsData: PlanForm, aiGeneratedPlan: Json,
                             status: string, userId: string)

  datatype PlanTaskRow = PlanTaskRow(planId: string, title: Option<Json>, description: Option<Json>,
                                     orderIndex: nat, completed: bool)

  datatype TodoRow = TodoRow(title: Option<Json>, description: Option<Json>, completed: bool, userId: string)

  predicate IndicesBelow(selected: seq<nat>, n: nat) {
    forall k :: 0 <= k < |selected| ==> selected[k] < n
  }

  /** One plan_tasks row per selected index, in selection order. */
  function TaskRows(planId: string, tasks: seq<Json>, selected: seq<nat>): (r: seq<PlanTaskRow>)
    requires IndicesBelow(selected, |tasks|)
    ensures |r| == |selected|
    ensures forall k :: 0 <= k < |r| ==>
              r[k] == PlanTaskRow(planId, TaskField(tasks[selected[k]], "title"),
                                  TaskField(tasks[selected[k]], "description"), selected[k], false)
  {
    if selected == [] then []
    else
      var rest := TaskRows(planId, tasks, selected[1..]);
      var i := selected[0];
      var r := [PlanTaskRow(planId, TaskField(tasks[i], "title"), TaskField(tasks[i], "description"), i, false)] + rest;
      assert forall k :: 1 <= k < |r| ==> r[k] == rest[k - 1] && selected[k] == selected[1..][k - 1];
      r
  }

  /** The todo rows copied from the plan task rows. */
  function TodoRows(rows: seq<PlanTaskRow>, userId: string): (r: seq<TodoRow>)
    ensures |r| == |rows|
    ensures forall k :: 0 <= k < |r| ==> r[k] == TodoRow(rows[k].title, rows[k].description, false, userId)
  {
    if rows == [] then []
    else
      var rest := TodoRows(rows[1..], userId);
      var r := [TodoRow(rows[0].title, rows[0].description, false, userId)] + rest;
      assert forall k :: 1 <= k < |r| ==> r[k] == rest[k - 1] && rows[k] == rows[1..][k - 1];
      r
  }

  datatype SaveOutcome = PlanError(message: string) | TasksError(message: string) | PlanSaved(taskCount: nat)

  /** What savePlan writes: the plan row it inserts, the plan task rows and the
      todo rows it goes on to insert, and how it ends. */
  datatype SaveEffects = SaveEffects(plan: PlanRow, planTasks: seq<PlanTaskRow>, todos: seq<TodoRow>, outcome: SaveOutcome)

  /** savePlan, given the insert outcomes: the plan with status 'draft';
      when it is stored and tasks are selected, one task row per selected
      index; when those are stored too, one todo row per task row. */
  function SavePlan(form: PlanForm, plan: Json, tasks: seq<Json>, selected: seq<nat>, userId: string,
                    planInsert: Result<string>, tasksError: Option<string>): (r: SaveEffects)
    requires IndicesBelow(selected, |tasks|)
    ensures r.plan == PlanRow(form.title, form.description, form, plan, "draft", userId)
    ensures planInsert.Err? ==> r.outcome == PlanError(planInsert.error) && r.planTasks == [] && r.todos == []
    ensures planInsert.Ok? ==> r.planTasks == TaskRows(planInsert.value, tasks, selected)
    ensures r.planTasks == [] || tasksError.Some? ==> r.todos == []
    ensures r.planTasks != [] && tasksError.None? ==> r.todos == TodoRows(r.planTasks, userId)
    ensures r.outcome.PlanSaved? <==> planInsert.Ok? && (selected == [] || tasksError.None?)
    ensures r.outcome.PlanSaved? ==> r.outcome.taskCount == |selected|
  {
    var planRow := PlanRow(form.title, form.description, form, plan, "draft", userId);
    match planInsert
    case Err(e) => SaveEffects(planRow, [], [], PlanError(e))
    case Ok(planId) =>
      var rows := TaskRows(planId, tasks, selected);
      if rows == [] then SaveEffects(planRow, [], [], PlanSaved(0))
      else match tasksError
        case Some(e) => SaveEffects(planRow, rows, [], TasksError(e))
        case None => SaveEffects(planRow, rows, TodoRows(rows, userId), PlanSaved(|rows|))
  }

  /** Every saved task keeps its own index as its order and starts not completed,
      and every todo matches the saved task at the same position. */
  lemma SavedTasksMirror(form: PlanForm, plan: Json, tasks: seq<Json>, selected: seq<nat>, userId: string,
                         planId: string)
    requires IndicesBelow(selected, |tasks|)
    ensures var r := SavePlan(form, plan, tasks, selected, userId, Ok(planId), None);
            |r.todos| == |r.planTasks| == |selected| &&
            forall k :: 0 <= k < |selected| ==>
              r.planTasks[k].orderIndex == selected[k] && !r.planTasks[k].completed &&
              r.planTasks[k].title == TaskField(tasks[selected[k]], "title") &&
              r.todos[k].title == r.planTasks[k].title && r.todos[k].description == r.planTasks[k].description &&
              !r.todos[k].completed && r.todos[k].userId == userId
  {
  }

  // ---------------------------------------------------------------- display

  /** The "key: value" text of each entry. */
  function EntryTexts(entries: seq<(string, Json)>): seq<string> {
    seq(|entries|, k requires 0 <= k < |entries| => entries[k].0 + ": " + JsString(entries[k].1))
  }

  /** The entries of an array as an object: its indices as keys. */
  function IndexedEntries(items: seq<Json>, from: nat): seq<(string, Json)> {
    seq(|items|, k requires 0 <= k < |items| => (NatToString(from + k), items[k]))
  }

  /** renderContent of a plan section (None is a missing section). Strings are
      shown as they are; objects, arrays included, as their "key: value"
      entries separated by blank lines; anything else as String(content). */
  function RenderContent(content: Option<Json>): (r: string)
    ensures content == Some(JNull) ==> r == "null"
    ensures content.None? ==> r == "undefined"
  {
    match content
    case None => "undefined"
    case Some(JString(s)) => s
    case Some(JObject(es)) => JoinWith(EntryTexts(es), "\n\n")
    case Some(JArray(items)) => JoinWith(EntryTexts(IndexedEntries(items, 0)), "\n\n")
    case Some(v) => JsString(v)
  }

  /** A string section is shown verbatim. */
  lemma RenderStringVerbatim(s: string)
    ensures RenderContent(Some(JString(s))) == s
  {
  }

  /** Each entry of an object section appears in the text as "key: value". */
  lemma RenderShowsEveryEntry(entries: seq<(string, Json)>, k: nat)
    requires k < |entries|
    ensures Contains(RenderContent(Some(JObject(entries))), entries[k].0 + ": " + JsString(entries[k].1))
  {
    JoinWithContains(EntryTexts(entries), "\n\n", k);
  }

  /** An object section with more than one entry puts a blank line after the first. */
  lemma RenderSeparatesEntries(entries: seq<(string, Json)>)
    requires |entries| >= 2
    ensures RenderContent(Some(JObject(entries))) ==
            entries[0].0 + ": " + JsString(entries[0].1) + "\n\n" + RenderContent(Some(JObject(entries[1..])))
  {
    var t := EntryTexts(entries);
    assert t[1..] == EntryTexts(entries[1..]);
  }

  // ------------------------------------------------------------------ state

  datatype Step = FormStep | Generating | Results

  /** The page's state. */
  class PlanPage {
    var step: Step
    var isGenerating: bool
    var generatedPlan: Option<Json>
    var selected: seq<nat>
    var formData: PlanForm

    /** The selection holds distinct indices, and on the results step they are
        indices of the generated plan's tasks. */
    ghost predicate Valid()
      reads this
    {
      Distinct(selected) &&
      (step == Results ==> generatedPlan.Some? && Tasks(generatedPlan.value).Some? &&
                           IndicesBelow(selected, |Tasks(generatedPlan.value).value|))
    }

    constructor ()
      ensures Valid()
      ensures step == FormStep && !isGenerating && generatedPlan.None? && selected == [] && formData == EmptyPlanForm
    {
      step := FormStep;
      isGenerating := false;
      generatedPlan := None;
      selected := [];
      formData := EmptyPlanForm;
    }

    method SetForm(f: PlanForm)
      modifies this`formData
      ensures formData == f
    {
      formData := f;
    }

    /** generatePlan: the prompt is the filled template; a failed call goes
        back to the form; a plan is stored, and when its task list can be
        read every task is selected and the results are shown, otherwise the
        page goes back to the form with the old selection. */
    method GeneratePlan(template: string, response: Result<Json>) returns (prompt: string)
      requires Valid()
      modifies this
      ensures Valid()
      ensures prompt == FillPlaceholders(template, formData)
      ensures formData == old(formData) && !isGenerating
      ensures response.Err? ==> step == FormStep && generatedPlan == old(generatedPlan) && selected == old(selected)
      ensures response.Ok? ==> generatedPlan == Some(response.value)
      ensures response.Ok? && Tasks(response.value).Some? ==>
                step == Results && selected == AllIndices(|Tasks(response.value).value|)
      ensures response.Ok? && Tasks(response.value).None? ==> step == FormStep && selected == old(selected)
    {
      isGenerating := true;
      step := Generating;
      prompt := FillPlaceholders(template, formData);
      ApplyResponse(response);
      isGenerating := false;
    }

    /** What generatePlan does with the function's answer once it arrives. */
    method ApplyResponse(response: Result<Json>)
      requires Distinct(selected)
      modifies this`step, this`generatedPlan, this`selected
      ensures Valid()
      ensures response.Err? ==> step == FormStep && generatedPlan == old(generatedPlan) && selected == old(selected)
      ensures response.Ok? ==> generatedPlan == Some(response.value)
      ensures response.Ok? && Tasks(response.value).Some? ==>
                step == Results && selected == AllIndices(|Tasks(response.value).value|)
      ensures response.Ok? && Tasks(response.value).None? ==> step == FormStep && selected == old(selected)
    {
      match response {
        case Err(_) =>
          step := FormStep;
        case Ok(data) =>
          generatedPlan := Some(data);
          match Tasks(data) {
            case None =>
              step := FormStep;
            case Some(tasks) =>
              AllIndicesDistinct(|tasks|);
              selected := AllIndices(|tasks|);
              step := Results;
          }
      }
    }

    /** A checkbox of the results list, which shows one per task. */
    method Toggle(index: nat, checked: bool)
      requires Valid() && step == Results && index < |Tasks(generatedPlan.value).value|
      modifies this`selected
      ensures Valid()
      ensures selected == ToggleTask(old(selected), index, checked)
    {
      var n := |Tasks(generatedPlan.value).value|;
      var r := ToggleTask(selected, index, checked);
      forall k | 0 <= k < |r|
        ensures r[k] < n
      {
        assert r[k] in r;
        if r[k] != index {
          var j :| 0 <= j < |selected| && selected[j] == r[k];
        }
      }
      selected := r;
    }

    /** Save, offered on the results step; the page state is left as it is. */
    method Save(userId: string, planInsert: Result<string>, tasksError: Option<string>) returns (effects: SaveEffects)
      requires Valid() && step == Results
      ensures effects == SavePlan(formData, generatedPlan.value, Tasks(generatedPlan.value).value, selected,
                                  userId, planInsert, tasksError)
    {
      effects := SavePlan(formData, generatedPlan.value, Tasks(generatedPlan.value).value, selected,
                          userId, planInsert, tasksError);
    }

    /** resetForm: empty fields, no plan, no selection, back to the form. */
    method Reset()
      modifies this`formData, this`generatedPlan, this`selected, this`step
      ensures Valid()
      ensures formData == EmptyPlanForm && generatedPlan.None? && selected == [] && step == FormStep
    {
      formData := EmptyPlanForm;
      generatedPlan := None;
      selected := [];
      step := FormStep;
    }
  }
}
