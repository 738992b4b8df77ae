/** The task service (tasks.py): the SQL text and positional parameters
    `list_tasks` builds, and the field constraints of `TaskBase`. Running the
    query is not modelled. */
module Tasks {
  import opened Wrappers
  import Json

  /** A positional parameter bound to a `%s` placeholder. */
  datatype Param = PStr(s: string) | PInt(i: int)

  /** The fixed head of the query, `SELECT … FROM tasks WHERE 1=1`, written
      as the runs of text that concatenate to the SQL head of `list_tasks`
      (tasks.py:151-157). */
  const SelectHead: string := "\n        SELECT id,"
  const SelectIds: string := " project_id, task_id, title,"
  const SelectText: string := " description, status,"
  const SelectPriority: string := " priority,\n              "
  const SelectEstimate: string := " estimated_hours,"
  const SelectActual: string := " actual_hours, assigned_to,"
  const SelectStamps: string := " created_at, updated_at,\n"
  const SelectCompleted: string := "               completed_at,"
  const SelectFrom: string := " steps, tags\n        FROM tasks\n"
  const SelectWhere: string := "        WHERE 1=1\n    "
  const BaseQuery: string :=
    SelectHead + SelectIds + SelectText + SelectPriority + SelectEstimate
    + SelectActual + SelectStamps + SelectCompleted + SelectFrom + SelectWhere
  /** Each `%s` is a placeholder the driver binds to the next parameter. */
  const Placeholder: string := "%s"

  /** The clauses `list_tasks` appends, each the text before its placeholder
      followed by the placeholder: ` AND status = %s` and so on. */
  const StatusLead: string := " AND status = "
  const PriorityLead: string := " AND priority = "
  const AssignedLead: string := " AND assigned_to = "
  const StatusClause: string := StatusLead + Placeholder
  const PriorityClause: string := PriorityLead + Placeholder
  const AssignedClause: string := AssignedLead + Placeholder

  /** ` ORDER BY created_at DESC LIMIT %s OFFSET %s`. */
  const PageHead: string := " ORDER BY created_at DESC LIMIT "
  const PageMid: string := " OFFSET "
  const PageClause: string := PageHead + Placeholder + PageMid + Placeholder

  const DefaultLimit: int := 100
  const DefaultOffset: int := 0

  /** One active filter: the text of its clause before the placeholder, and
      the value bound to the placeholder. */
  datatype Filter = Filter(lead: string, value: Param)

  /** The filters `list_tasks` applies, in the order it tests them. */
  function Filters(status: Option<string>, priority: Option<int>, assignedTo: Option<string>): seq<Filter> {
    var f1 := if Json.TruthyStr(status) then [Filter(StatusLead, PStr(status.value))] else [];
    var f2 := if priority.Some? then f1 + [Filter(PriorityLead, PInt(priority.value))] else f1;
    if Json.TruthyStr(assignedTo) then f2 + [Filter(AssignedLead, PStr(assignedTo.value))] else f2
  }

  function Values(fs: seq<Filter>): (r: seq<Param>)
    ensures |r| == |fs|
  {
    seq(|fs|, i requires 0 <= i < |fs| => fs[i].value)
  }

  lemma ValuesSnoc(fs: seq<Filter>, f: Filter)
    ensures Values(fs + [f]) == Values(fs) + [f.value]
  {
  }

  /** The query text as literal pieces and placeholders. */
  datatype Piece = Lit(text: string) | Hole

  function Render(ps: seq<Piece>): string {
    if ps == [] then ""
    else (match ps[0] case Lit(t) => t case Hole => Placeholder) + Render(ps[1..])
  }

  function Holes(ps: seq<Piece>): nat {
    if ps == [] then 0 else (if ps[0] == Hole then 1 else 0) + Holes(ps[1..])
  }

  function FilterPieces(fs: seq<Filter>): seq<Piece> {
    if fs == [] then [] else [Lit(fs[0].lead), Hole] + FilterPieces(fs[1..])
  }

  function PagePieces(): seq<Piece> {
    [Lit(PageHead), Hole, Lit(PageMid), Hole]
  }

  /** The whole query of `list_tasks` for the given filters. */
  function QueryPieces(fs: seq<Filter>): seq<Piece> {
    [Lit(BaseQuery)] + FilterPieces(fs) + PagePieces()
  }

  lemma {:induction false} RenderAppend(a: seq<Piece>, b: seq<Piece>)
    ensures Render(a + b) == Render(a) + Render(b)
    ensures Holes(a + b) == Holes(a) + Holes(b)
  {
    if a == [] {
      assert a + b == b;
    } else {
      assert (a + b)[1..] == a[1..] + b;
      RenderAppend(a[1..], b);
    }
  }

  lemma {:induction false} FilterHoles(fs: seq<Filter>)
    ensures Holes(FilterPieces(fs)) == |fs|
  {
    if fs != [] {
      RenderAppend([Lit(fs[0].lead), Hole], FilterPieces(fs[1..]));
      FilterHoles(fs[1..]);
    }
  }

  lemma {:induction false} FilterPiecesSnoc(fs: seq<Filter>, f: Filter)
    ensures FilterPieces(fs + [f]) == FilterPieces(fs) + [Lit(f.lead), Hole]
  {
    if fs == [] {
      assert [f][1..] == [];
    } else {
      assert (fs + [f])[1..] == fs[1..] + [f];
      FilterPiecesSnoc(fs[1..], f);
    }
  }

  lemma LitHole(t: string)
    ensures Render([Lit(t), Hole]) == t + Placeholder
  {
    assert [Lit(t), Hole][1..] == [Hole];
    assert [Hole][1..] == [];
  }

  /** The rendered query before paging, with the filters `fs`. */
  function Head(fs: seq<Filter>): string {
    Render([Lit(BaseQuery)] + FilterPieces(fs))
  }

  lemma HeadEmpty()
    ensures Head([]) == BaseQuery
  {
    var p: seq<Piece> := [Lit(BaseQuery)];
    assert FilterPieces([]) == [];
    assert p + FilterPieces([]) == p;
    assert p[1..] == [];
    assert Render(p) == BaseQuery + Render([]);
    assert BaseQuery + "" == BaseQuery;
  }

  /** Appending one filter appends its clause to the query text. */
  lemma HeadSnoc(fs: seq<Filter>, f: Filter)
    ensures Head(fs + [f]) == Head(fs) + (f.lead + Placeholder)
  {
    FilterPiecesSnoc(fs, f);
    assert [Lit(BaseQuery)] + FilterPieces(fs + [f]) == ([Lit(BaseQuery)] + FilterPieces(fs)) + [Lit(f.lead), Hole];
    RenderAppend([Lit(BaseQuery)] + FilterPieces(fs), [Lit(f.lead), Hole]);
    LitHole(f.lead);
  }

  lemma PageRender()
    ensures Render(PagePieces()) == PageClause
    ensures Holes(PagePieces()) == 2
  {
    var p := PagePieces();
    assert p == [Lit(PageHead), Hole] + [Lit(PageMid), Hole];
    RenderAppend([Lit(PageHead), Hole], [Lit(PageMid), Hole]);
    LitHole(PageHead);
    LitHole(PageMid);
  }

  lemma QueryText(fs: seq<Filter>)
    ensures Render(QueryPieces(fs)) == Head(fs) + PageClause
  {
    PageRender();
    RenderAppend([Lit(BaseQuery)] + FilterPieces(fs), PagePieces());
  }

  /** The number of `%` characters in `s`: the driver reads each one as the
      start of a placeholder. */
  function Pct(s: string): nat {
    if s == [] then 0 else (if s[0] == '%' then 1 else 0) + Pct(s[1..])
  }

  lemma {:induction false} PctAppend(a: string, b: string)
    ensures Pct(a + b) == Pct(a) + Pct(b)
  {
    if a == [] {
      assert a + b == b;
    } else {
      assert (a + b)[1..] == a[1..] + b;
      PctAppend(a[1..], b);
    }
  }

  lemma {:induction false} PctNone(s: string)
    requires '%' !in s
    ensures Pct(s) == 0
  {
    if s != [] {
      assert s[0] == s[0] && '%' !in s[1..];
      PctNone(s[1..]);
    }
  }

  lemma PctPlaceholder()
    ensures Pct(Placeholder) == 1
  {
    assert Placeholder[1..] == "s";
    assert "s"[1..] == "";
  }

  lemma {:induction false} PctLitHole(t: string)
    requires '%' !in t
    ensures Pct(t + Placeholder) == 1
  {
    PctAppend(t, Placeholder);
    PctNone(t);
    PctPlaceholder();
  }

  lemma NoPctHead0() ensures '%' !in SelectHead + SelectIds + SelectText {}
  lemma NoPctHead1() ensures '%' !in SelectPriority + SelectEstimate + SelectActual {}
  lemma NoPctHead2() ensures '%' !in SelectStamps + SelectCompleted {}
  lemma NoPctHead3() ensures '%' !in SelectFrom + SelectWhere {}

  /** The fixed head holds no `%`. */
  lemma BaseQueryPct()
    ensures Pct(BaseQuery) == 0
  {
    NoPctHead0();
    NoPctHead1();
    NoPctHead2();
    NoPctHead3();
    assert BaseQuery == (SelectHead + SelectIds + SelectText)
                        + (SelectPriority + SelectEstimate + SelectActual)
                        + (SelectStamps + SelectCompleted) + (SelectFrom + SelectWhere);
    PctNone(BaseQuery);
  }

  /** Every filter `list_tasks` applies has one of the three clause leads. */
  predicate KnownLeads(fs: seq<Filter>) {
    forall k :: 0 <= k < |fs| ==> fs[k].lead in [StatusLead, PriorityLead, AssignedLead]
  }

  lemma FiltersKnown(status: Option<string>, priority: Option<int>, assignedTo: Option<string>)
    ensures KnownLeads(Filters(status, priority, assignedTo))
  {
  }

  lemma KnownLeadPct(lead: string)
    requires lead in [StatusLead, PriorityLead, AssignedLead]
    ensures Pct(lead + Placeholder) == 1
  {
    assert '%' !in StatusLead && '%' !in PriorityLead && '%' !in AssignedLead;
    PctLitHole(lead);
  }

  /** Each filter clause adds exactly one `%`. */
  lemma {:induction false} FilterPct(fs: seq<Filter>)
    requires KnownLeads(fs)
    ensures Pct(Render(FilterPieces(fs))) == |fs|
  {
    if fs != [] {
      var rest := Render(FilterPieces(fs[1..]));
      RenderAppend([Lit(fs[0].lead), Hole], FilterPieces(fs[1..]));
      LitHole(fs[0].lead);
      assert Render(FilterPieces(fs)) == (fs[0].lead + Placeholder) + rest;
      PctAppend(fs[0].lead + Placeholder, rest);
      KnownLeadPct(fs[0].lead);
      FilterPct(fs[1..]);
    }
  }

  /** The paging clause holds two `%`. */
  lemma PageClausePct()
    ensures Pct(PageClause) == 2
  {
    assert '%' !in PageHead && '%' !in PageMid;
    assert PageClause == (PageHead + Placeholder) + (PageMid + Placeholder);
    PctAppend(PageHead + Placeholder, PageMid + Placeholder);
    PctLitHole(PageHead);
    PctLitHole(PageMid);
  }

  /** `list_tasks` up to the database call: the query text and its
      parameters, grown clause by clause. */
  method ListTasksQuery(status: Option<string>, priority: Option<int>, assignedTo: Option<string>,
                        limit: Option<int>, offset: Option<int>)
    returns (query: string, params: seq<Param>)
    ensures query == Render(QueryPieces(Filters(status, priority, assignedTo)))
    ensures params == Values(Filters(status, priority, assignedTo))
                      + [PInt(limit.GetOr(DefaultLimit)), PInt(offset.GetOr(DefaultOffset))]
  {
    var lim := limit.GetOr(DefaultLimit);
    var off := offset.GetOr(DefaultOffset);
    ghost var fs: seq<Filter> := [];
    HeadEmpty();
    query := BaseQuery;
    params := [];
    if status.Some? && status.value != "" {
      HeadSnoc(fs, Filter(StatusLead, PStr(status.value)));
      fs := fs + [Filter(StatusLead, PStr(status.value))];
      query := query + StatusClause;
      params := params + [PStr(status.value)];
    }
    assert query == Head(fs) && params == Values(fs);
    assert fs == if Json.TruthyStr(status) then [Filter(StatusLead, PStr(status.value))] else [];
    if priority.Some? {
      HeadSnoc(fs, Filter(PriorityLead, PInt(priority.value)));
      ValuesSnoc(fs, Filter(PriorityLead, PInt(priority.value)));
      fs := fs + [Filter(PriorityLead, PInt(priority.value))];
      query := query + PriorityClause;
      params := params + [PInt(priority.value)];
    }
    assert query == Head(fs) && params == Values(fs);
    if assignedTo.Some? && assignedTo.value != "" {
      HeadSnoc(fs, Filter(AssignedLead, PStr(assignedTo.value)));
      ValuesSnoc(fs, Filter(AssignedLead, PStr(assignedTo.value)));
      fs := fs + [Filter(AssignedLead, PStr(assignedTo.value))];
      query := query + AssignedClause;
      params := params + [PStr(assignedTo.value)];
    }
    assert query == Head(fs) && params == Values(fs);
    assert fs == Filters(status, priority, assignedTo);
    QueryText(fs);
    query := query + PageClause;
    params := params + [PInt(lim), PInt(off)];
  }

  lemma LitFirst(h: string, ps: seq<Piece>)
    ensures Render([Lit(h)] + ps) == h + Render(ps)
    ensures Holes([Lit(h)] + ps) == Holes(ps)
  {
    assert ([Lit(h)] + ps)[1..] == ps;
  }

  /** The rendered query is the fixed head, the filter clauses and the
      paging clause, with one placeholder per filter plus two. */
  lemma QueryShape(fs: seq<Filter>)
    ensures Render(QueryPieces(fs)) == BaseQuery + Render(FilterPieces(fs)) + PageClause
    ensures Holes(QueryPieces(fs)) == |fs| + 2
  {
    RenderAppend([Lit(BaseQuery)] + FilterPieces(fs), PagePieces());
    LitFirst(BaseQuery, FilterPieces(fs));
    FilterHoles(fs);
    PageRender();
  }

  /** The rendered query holds one `%` per filter plus two. */
  lemma QueryPct(fs: seq<Filter>)
    requires KnownLeads(fs)
    ensures Pct(Render(QueryPieces(fs))) == |fs| + 2
  {
    QueryShape(fs);
    PctAppend(BaseQuery + Render(FilterPieces(fs)), PageClause);
    PctAppend(BaseQuery, Render(FilterPieces(fs)));
    BaseQueryPct();
    FilterPct(fs);
    PageClausePct();
  }

  /** The query and its parameters always line up: one parameter per
      placeholder, and as many `%` characters in the text as parameters,
      between two and five of them, the paging pair last; the query keeps its
      fixed head and ends with the ordering and paging clause. */
  lemma QueryAlignment(status: Option<string>, priority: Option<int>, assignedTo: Option<string>,
                       limit: Option<int>, offset: Option<int>)
    ensures var fs := Filters(status, priority, assignedTo);
      var query := Render(QueryPieces(fs));
      var params := Values(fs) + [PInt(limit.GetOr(DefaultLimit)), PInt(offset.GetOr(DefaultOffset))];
      && Holes(QueryPieces(fs)) == |params|
      && Pct(query) == |params|
      && 2 <= |params| <= 5
      && params[|params| - 2..] == [PInt(limit.GetOr(100)), PInt(offset.GetOr(0))]
      && |BaseQuery| + |PageClause| <= |query|
      && query[..|BaseQuery|] == BaseQuery
      && query[|query| - |PageClause|..] == PageClause
  {
    var fs := Filters(status, priority, assignedTo);
    assert |fs| <= 3;
    QueryShape(fs);
    FiltersKnown(status, priority, assignedTo);
    QueryPct(fs);
  }

  /** Which filters are applied, and in what order: status only when truthy
      (an empty string adds nothing), priority whenever given (0 included),
      assignee only when truthy; their values appear in that same order. */
  lemma FiltersSpec(status: Option<string>, priority: Option<int>, assignedTo: Option<string>)
    ensures var fs := Filters(status, priority, assignedTo);
      && |fs| == (if Json.TruthyStr(status) then 1 else 0) + (if priority.Some? then 1 else 0) + (if Json.TruthyStr(assignedTo) then 1 else 0)
      && (Json.TruthyStr(status) ==> fs[0] == Filter(StatusLead, PStr(status.value)))
      && (priority.Some? ==> fs[if Json.TruthyStr(status) then 1 else 0] == Filter(PriorityLead, PInt(priority.value)))
      && (Json.TruthyStr(assignedTo) ==> fs[|fs| - 1] == Filter(AssignedLead, PStr(assignedTo.value)))
      && (!Json.TruthyStr(status) ==> forall k :: 0 <= k < |fs| ==> fs[k].lead != StatusLead)
      && (priority == Some(0) ==> Filter(PriorityLead, PInt(0)) in fs)
  {
  }

  /** With no filters and no paging given, the query is the fixed head and
      the ordering clause, bound to limit 100 and offset 0. */
  lemma DefaultQuery()
    ensures Render(QueryPieces(Filters(None, None, None))) == BaseQuery + PageClause
    ensures Values(Filters(None, None, None)) + [PInt(None.GetOr(DefaultLimit)), PInt(None.GetOr(DefaultOffset))]
            == [PInt(100), PInt(0)]
  {
    HeadEmpty();
    QueryText([]);
  }

  // ------------------------------------------------------------- TaskBase

  /** A field of the request body: left out, sent as null, or given. */
  datatype Field<T> = Omitted | Null | Given(value: T)

  /** The request body of a task (floats, tags and steps left out). */
  datatype TaskInput = TaskInput(
    projectId: Option<string>,
    taskId: string,
    title: string,
    description: Option<string>,
    status: Field<string>,
    priority: Option<int>,
    assignedTo: Option<string>)

  /** A validated `TaskBase`. */
  datatype Task = Task(
    projectId: Option<string>,
    taskId: string,
    title: string,
    description: Option<string>,
    status: Option<string>,
    priority: Option<int>,
    assignedTo: Option<string>)

  /** The constraints every validated task meets. */
  predicate TaskConstraints(t: Task) {
    && 1 <= |t.title| <= 200
    && (t.priority.Some? ==> 0 <= t.priority.value <= 10)
  }

  /** `status: Optional[str] = "QUEUED"`: the default applies only when the
      field is left out; an explicit null stays null. */
  function StatusOf(f: Field<string>): Option<string> {
    match f
    case Omitted => Some("QUEUED")
    case Null => None
    case Given(s) => Some(s)
  }

  /** The validation of `TaskBase`: the names of the fields that break a
      constraint, in declaration order, or the task. */
  function ValidateTask(input: TaskInput): Result<Task, seq<string>> {
    var errors := (if 1 <= |input.title| <= 200 then [] else ["title"])
                  + (if input.priority.None? || 0 <= input.priority.value <= 10 then [] else ["priority"]);
    if errors != [] then Err(errors)
    else Ok(Task(input.projectId, input.taskId, input.title, input.description,
                 StatusOf(input.status), input.priority, input.assignedTo))
  }

  /** Validation accepts exactly the inputs within the constraints, the
      result meets them, keeps every given field, and defaults the status to
      "QUEUED" only when it was left out. */
  lemma ValidateTaskSpec(input: TaskInput)
    ensures ValidateTask(input).Ok? <==>
      1 <= |input.title| <= 200 && (input.priority.None? || 0 <= input.priority.value <= 10)
    ensures ValidateTask(input).Ok? ==>
      var t := ValidateTask(input).value;
      && TaskConstraints(t)
      && t.title == input.title && t.priority == input.priority && t.taskId == input.taskId
      && t.projectId == input.projectId && t.description == input.description
      && t.assignedTo == input.assignedTo
      && (input.status.Given? ==> t.status == Some(input.status.value))
      && (input.status == Omitted ==> t.status == Some("QUEUED"))
      && (input.status == Null ==> t.status == None)
    ensures ValidateTask(input).Err? ==>
      ("title" in ValidateTask(input).error <==> !(1 <= |input.title| <= 200))
  {
  }

  /** Sending a valid task back as input, status given, validates to itself. */
  lemma ValidateRoundTrip(t: Task)
    requires TaskConstraints(t)
    ensures ValidateTask(TaskInput(t.projectId, t.taskId, t.title, t.description,
                                   if t.status.Some? then Given(t.status.value) else Null,
                                   t.priority, t.assignedTo)) == Ok(t)
  {
  }
}
