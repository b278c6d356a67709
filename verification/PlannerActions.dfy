/** Planner state, actions and what executing one action does (agent/react_executor.py, react_planner.py). */
module PlannerActions {
  import opened Text
  import opened TableNames
  import opened PlannerMerges

  datatype Action =
    | RetrievePastCorrections
    | RetrieveSchemaForTables
    | RetrieveJoinPaths
    | RetrieveSampleQueries
    | RequestClarification
    | RetrieveMoreContext
    | FetchSchema
    | GenerateSql
    | ValidateAndReturn
    | AskClarification
    | GiveUp

  datatype Code =
    | RequestTimeout
    | OllamaTimeout
    | OllamaUpstream
    | OllamaMalformed
    | SqlEmpty
    | SqlMultiStatement
    | SqlDestructive
    | SqlNotSelect
    | TableOutOfScope
    | ColumnOutOfScope
    | ExplainError
    | ExplainUnavailable
    | MaxRetriesExceeded

  type Vector = seq<real>

  // The keys of the state dictionary that decide anything.
  datatype State = State(
    context: string,
    tablesInScope: seq<string>,
    matchedGroups: seq<string>,
    allowedColumns: Columns,
    retrievedSchema: Columns,
    columnsRefreshed: set<string>,
    retrievedTables: set<string>,
    focusTables: seq<string>,
    generationTables: seq<string>,
    currentSql: string,               // "" stands for None too
    lastErrors: seq<Code>,
    sqlGenerationCount: nat,
    tablesUsed: seq<string>,
    actionsTaken: seq<(Action, string)>,
    pastCorrections: seq<Correction>,
    pastChecked: bool,
    sampleQueries: seq<string>,
    joinPaths: seq<string>,
    embedding: Option<Vector>,
    score: real)

  // What stays fixed during a run. `mentioned` holds the known tables the search query names.
  datatype Request = Request(query: string, searchQuery: string, topK: int, mentioned: set<string>, settings: Settings)

  datatype Settings = Settings(
    maxIterations: int,
    maxTables: nat,
    topK: int,
    threshold: real,
    tablesWeight: real,
    joinWeight: real,
    groupWeight: real,
    exampleWeight: real,
    iterationPenalty: real)

  /* ---- answers of the outside world, arbitrary ---- */

  datatype Correction = Correction(tables: seq<string>)

  datatype PastAnswer = PastAnswer(corrections: seq<Correction>, text: string)

  datatype SchemaAnswer = SchemaAnswer(
    embedding: Option<Vector>,
    groups: seq<string>,
    tables: seq<string>,
    context: string,
    resultColumns: Columns,        // parsed out of the retrieved documents
    catalogColumns: Columns,       // from the column catalog
    liveColumns: Option<Columns>,  // from the database, None when the load failed
    columnsText: string)

  datatype JoinAnswer = JoinAnswer(paths: seq<string>, text: string)

  datatype SampleAnswer = SampleAnswer(queries: seq<string>, text: string)

  // The code model fails with a transport code, or returns text from which SQL was extracted.
  datatype SqlAnswer = SqlFails(code: Transport) | SqlText(sql: string)

  // Verdicts of the validators; `found` and `ctes` are the tables and CTE names parsed out of the SQL.
  datatype Review = Review(
    safety: seq<Blocking>,
    found: seq<string>,
    ctes: set<string>,
    columns: seq<Blocking>,
    explain: seq<Verdict>)

  type Transport = c: Code | c in {OllamaTimeout, OllamaUpstream, OllamaMalformed} witness OllamaTimeout

  // No validator reports a transport failure.
  type Verdict = c: Code | !IsTransport(c) witness SqlEmpty

  type Blocking = c: Code | c != ExplainUnavailable && !IsTransport(c) witness SqlEmpty

  /* ---- small helpers of the source ---- */

  function BlockingWarnings(warnings: seq<Code>): (r: seq<Code>)
    ensures r == [] <==> forall i :: 0 <= i < |warnings| ==> warnings[i] == ExplainUnavailable
  {
    if warnings == [] then []
    else
      (if warnings[0] == ExplainUnavailable then [] else [warnings[0]]) + BlockingWarnings(warnings[1..])
  }

  function InfoWarnings(warnings: seq<Code>): seq<Code> {
    if warnings == [] then []
    else (if warnings[0] == ExplainUnavailable then [warnings[0]] else []) + InfoWarnings(warnings[1..])
  }

  predicate IsTransport(code: Code) {
    code in {OllamaTimeout, OllamaUpstream, OllamaMalformed}
  }

  predicate IsTransportFailure(warnings: seq<Code>) {
    warnings != [] && forall i :: 0 <= i < |warnings| ==> IsTransport(warnings[i])
  }

  function OrElse<T(==)>(a: seq<T>, b: seq<T>): seq<T> {
    if a != [] then a else b
  }

  function Keep(items: seq<string>, wanted: seq<string>): (r: seq<string>)
    ensures forall x :: x in r <==> x in items && x in wanted
  {
    if items == [] then []
    else
      var last := items[|items| - 1];
      assert forall x :: x in items <==> x in items[..|items| - 1] || x == last;
      Keep(items[..|items| - 1], wanted) + if last in wanted then [last] else []
  }

  function Drop(items: seq<string>, unwanted: set<string>): (r: seq<string>)
    ensures forall x :: x in r <==> x in items && x !in unwanted
  {
    if items == [] then []
    else
      var last := items[|items| - 1];
      assert forall x :: x in items <==> x in items[..|items| - 1] || x == last;
      Drop(items[..|items| - 1], unwanted) + if last in unwanted then [] else [last]
  }

  function NonEmpty(items: seq<string>): seq<string> {
    Drop(items, {""})
  }

  function ToSet(items: seq<string>): (r: set<string>)
    ensures forall x :: x in r <==> x in items
  {
    set x | x in items
  }

  // Normalised names of the tables whose columns are known.
  function SchemaNames(s: State): set<string> {
    set k | k in Keys(s.retrievedSchema) && Strip(k) != "" :: Normalize(k)
  }

  // The same as the list of available actions reads them, blank keys included.
  function SchemaKeys(s: State): set<string> {
    set k | k in Keys(s.retrievedSchema) :: Normalize(k)
  }

  // _action_target: the key under which an action is remembered.
  function ActionTarget(req: Request, action: Action, input: string, s: State): string {
    match action
    case RetrieveMoreContext => SchemaTarget(input, s)
    case RetrieveSchemaForTables => SchemaTarget(input, s)
    case FetchSchema => SchemaTarget(input, s)
    case RetrieveJoinPaths => Join(SortNames(NormalizeAll(s.tablesInScope)), ",")
    case RetrieveSampleQueries => QueryTarget(req, input)
    case RetrievePastCorrections => QueryTarget(req, input)
    case _ => ActionName(action)
  }

  function SchemaTarget(input: string, s: State): string {
    Join(OrElse(ParseCsv(input), NormalizeAll(s.tablesInScope)), ",")
  }

  function QueryTarget(req: Request, input: string): string {
    Lower(Join(Words(if input != "" then input else req.searchQuery), " "))
  }

  function ActionName(action: Action): string {
    match action
    case RequestClarification => "REQUEST_CLARIFICATION"
    case GenerateSql => "GENERATE_SQL"
    case ValidateAndReturn => "VALIDATE_AND_RETURN"
    case AskClarification => "ASK_CLARIFICATION"
    case _ => "GIVE_UP"
  }

  // sorted() of the names; only that it depends on nothing else matters here.
  function SortNames(names: seq<string>): seq<string> {
    if names == [] then [] else InsertName(names[|names| - 1], SortNames(names[..|names| - 1]))
  }

  function InsertName(name: string, names: seq<string>): seq<string> {
    if names == [] || TextLeq(name, names[0]) then [name] + names
    else [names[0]] + InsertName(name, names[1..])
  }

  function TextLeq(a: string, b: string): bool {
    if a == [] then true
    else if b == [] then false
    else if a[0] != b[0] then a[0] < b[0]
    else TextLeq(a[1..], b[1..])
  }

  /* ---- retrieving past corrections ---- */

  function ScopeWithCorrections(scope: seq<string>, corrections: seq<Correction>): seq<string> {
    if corrections == [] then scope
    else
      var last := |corrections| - 1;
      MergeOrdered(ScopeWithCorrections(scope, corrections[..last]), Names(corrections[last].tables))
  }

  // Everything after the await of retrieve_past_corrections.
  function PastSegment(s: State, a: PastAnswer): State {
    s.(pastChecked := true,
       pastCorrections := a.corrections,
       tablesInScope := ScopeWithCorrections(s.tablesInScope, a.corrections),
       context := if a.corrections == [] then s.context
                  else MergeContext(s.context, "PAST CORRECTIONS:\n" + a.text))
  }

  /* ---- retrieving schema, in the three stretches between its awaits ---- */

  function EmbedSegment(s: State, a: SchemaAnswer): State {
    s.(embedding := if s.embedding.Some? then s.embedding else a.embedding)
  }

  function KnownTables(scope: seq<string>): seq<string> {
    NonEmpty(NormalizeAll(scope))
  }

  function ExplicitTargets(scope: seq<string>, input: string): seq<string> {
    Keep(ParseCsv(input), KnownTables(scope))
  }

  // _infer_focus_tables: the first two known tables the search query mentions.
  function InferredTargets(req: Request, scope: seq<string>): seq<string> {
    FirstTwo(AddItems([], Keep(KnownTables(scope), MentionedIn(req, KnownTables(scope)))))
  }

  function MentionedIn(req: Request, known: seq<string>): seq<string> {
    if known == [] then []
    else
      var last := known[|known| - 1];
      MentionedIn(req, known[..|known| - 1]) + if last in req.mentioned then [last] else []
  }

  function FirstTwo(items: seq<string>): seq<string> {
    if |items| <= 2 then items else items[..2]
  }

  function FocusSeed(req: Request, scope: seq<string>, input: string): seq<string> {
    var seed := OrElse(ExplicitTargets(scope, input), InferredTargets(req, scope));
    if seed == [] && |KnownTables(scope)| == 1 then KnownTables(scope) else seed
  }

  function TargetTables(req: Request, scope: seq<string>, input: string): seq<string> {
    OrElse(OrElse(ExplicitTargets(scope, input), InferredTargets(req, scope)), KnownTables(scope))
  }

  // After retrieve_groups: groups, scope, context and focus grow.
  function GroupsSegment(req: Request, s: State, input: string, a: SchemaAnswer): State {
    var scope := MergeOrdered(s.tablesInScope, a.tables);
    s.(matchedGroups := MergeOrdered(s.matchedGroups, a.groups),
       tablesInScope := scope,
       context := MergeContext(s.context, a.context),
       focusTables := MergeOrdered(s.focusTables, FocusSeed(req, scope, input)))
  }

  // The columns found for the targets; the live database is asked only when nothing else knew.
  function ParsedColumns(targets: seq<string>, a: SchemaAnswer): Columns {
    var wanted := ToSet(Names(OrElse(targets, a.tables)));
    var parsed := MergeColumns(Restrict(a.resultColumns, wanted), a.catalogColumns);
    if parsed == [] && targets != [] && a.liveColumns.Some?
    then MergeColumns(parsed, a.liveColumns.value)
    else parsed
  }

  // After the column retrieval.
  function ColumnsSegment(s: State, targets: seq<string>, a: SchemaAnswer): State {
    var parsed := ParsedColumns(targets, a);
    s.(retrievedSchema := MergeColumns(s.retrievedSchema, parsed),
       allowedColumns := MergeColumns(s.allowedColumns, parsed),
       columnsRefreshed := s.columnsRefreshed + Keys(parsed),
       retrievedTables := s.retrievedTables + ToSet(OrElse(targets, NormalizeAll(a.tables))),
       context := if parsed == [] then s.context
                  else MergeContext(s.context, "RETRIEVED COLUMNS:\n" + a.columnsText))
  }

  function SchemaAction(req: Request, s: State, input: string, a: SchemaAnswer): State {
    var grouped := GroupsSegment(req, EmbedSegment(s, a), input, a);
    ColumnsSegment(grouped, TargetTables(req, grouped.tablesInScope, input), a)
  }

  /* ---- the other actions ---- */

  function JoinAction(s: State, input: string, a: JoinAnswer): State {
    var names := Names(OrElse(ParseCsv(input), s.tablesInScope));
    var paths := if |names| < 2 then [] else a.paths;
    s.(joinPaths := paths,
       context := if paths == [] then s.context else MergeContext(s.context, "JOIN PATHS:\n" + a.text))
  }

  function SampleAction(s: State, a: SampleAnswer): State {
    s.(sampleQueries := a.queries,
       context := if a.queries == [] then s.context
                  else MergeContext(s.context, "SAMPLE QUERIES:\n" + a.text))
  }

  function GenerateAction(s: State, a: SqlAnswer): (State, seq<Code>) {
    match a
    case SqlFails(code) => (s, [code])
    case SqlText(sql) =>
      (s.(currentSql := sql, sqlGenerationCount := s.sqlGenerationCount + 1, lastErrors := []), [])
  }

  // _generation_tables_in_scope
  function GenerationTables(s: State): seq<string> {
    OrElse(Names(s.generationTables), Names(s.tablesInScope))
  }

  const RESPONSE_QUOTES: set<char> := {'`', '"', '\'', '[', ']'}

  // sql_generator's own normaliser: unquotes and keeps what follows the last dot.
  function ResponseName(name: string): string {
    var cleaned := StripOf(Strip(name), RESPONSE_QUOTES);
    var parts := Split(cleaned, '.');
    StripOf(Strip(parts[|parts| - 1]), RESPONSE_QUOTES)
  }

  // The in-scope name the response uses for a lower-case key; the last such table wins.
  function AllowedName(scope: seq<string>, key: string): Option<string> {
    if scope == [] then None
    else
      var last := scope[|scope| - 1];
      if ResponseName(last) != "" && Lower(ResponseName(last)) == key then Some(ResponseName(last))
      else AllowedName(scope[..|scope| - 1], key)
  }

  // validate_tables_used: the in-scope tables found, and whether anything else was.
  function TablesUsed(found: seq<string>, ctes: set<string>, scope: seq<string>): (seq<string>, bool) {
    if found == [] then ([], false)
    else
      var last := |found| - 1;
      var (used, unknown) := TablesUsed(found[..last], ctes, scope);
      var name := ResponseName(found[last]);
      if name == "" then (used, unknown)
      else
        var allowed := AllowedName(scope, Lower(name));
        if allowed.Some? then (AddItem(used, allowed.value), unknown)
        else (used, unknown || Lower(name) !in ctes)
  }

  function ReviewWarnings(s: State, review: Review): seq<Code> {
    if review.safety != [] then review.safety
    else
      var listed := (if TablesUsed(review.found, review.ctes, GenerationTables(s)).1 then [TableOutOfScope] else [])
                    + review.columns;
      listed + (if BlockingWarnings(listed) == [] then review.explain else [])
  }

  function ValidateAction(s: State, review: Review): (State, seq<Code>) {
    if s.currentSql == "" then (s, [SqlEmpty])
    else
      var checked := if review.safety != [] then s
                     else s.(tablesUsed := TablesUsed(review.found, review.ctes, GenerationTables(s)).0);
      var warnings := ReviewWarnings(s, review);
      var blocking := BlockingWarnings(warnings);
      (checked.(lastErrors := blocking), if blocking == [] then InfoWarnings(warnings) else blocking)
  }

  // One round's answers, whichever of them are asked for.
  datatype Answers = Answers(
    llm: LlmAnswer,
    embedding: Option<Vector>,
    hits: seq<(string, real)>,
    past: PastAnswer,
    schema: SchemaAnswer,
    schedule: seq<bool>,
    joins: JoinAnswer,
    samples: SampleAnswer,
    sql: SqlAnswer,
    review: Review)

  // The planning model: a transport failure, or any action with any input. `payload` tells whether
  // the raw answer contains something shaped like an action line.
  datatype LlmAnswer = LlmFails(code: Transport) | LlmSays(action: Action, input: string, payload: bool)

  // execute_action
  function Execute(req: Request, s: State, action: Action, input: string, a: Answers): (State, seq<Code>) {
    match action
    case RetrievePastCorrections => (PastSegment(s, a.past), [])
    case RetrieveSchemaForTables => (SchemaAction(req, s, input, a.schema), [])
    case RetrieveMoreContext => (SchemaAction(req, s, input, a.schema), [])
    case FetchSchema => (SchemaAction(req, s, input, a.schema), [])
    case RetrieveJoinPaths => (JoinAction(s, input, a.joins), [])
    case RetrieveSampleQueries => (SampleAction(s, a.samples), [])
    case GenerateSql => GenerateAction(s, a.sql)
    case ValidateAndReturn => ValidateAction(s, a.review)
    case _ => (s, [])
  }

  /* ---- the first round: corrections and schema retrieved concurrently ---- */

  // The two coroutines under asyncio.gather. The schema one stands before one of its awaits.
  datatype SchemaPoint = AtEmbedding | AtGroups | AtColumns(targets: seq<string>) | Over

  datatype Gather = Gather(state: State, pastDone: bool, at: SchemaPoint)

  function ResumePast(g: Gather, past: PastAnswer): Gather {
    if g.pastDone then g else g.(state := PastSegment(g.state, past), pastDone := true)
  }

  function ResumeSchema(req: Request, g: Gather, a: SchemaAnswer): Gather {
    match g.at
    case AtEmbedding => g.(state := EmbedSegment(g.state, a), at := AtGroups)
    case AtGroups =>
      var grouped := GroupsSegment(req, g.state, "", a);
      g.(state := grouped, at := AtColumns(TargetTables(req, grouped.tablesInScope, "")))
    case AtColumns(targets) => g.(state := ColumnsSegment(g.state, targets, a), at := Over)
    case Over => g
  }

  // Runs a schedule (true resumes the corrections coroutine), then both to their end.
  function Interleave(req: Request, g: Gather, schedule: seq<bool>, past: PastAnswer, a: SchemaAnswer): Gather
    decreases |schedule|
  {
    if schedule == [] then
      ResumePast(ResumeSchema(req, ResumeSchema(req, ResumeSchema(req, g, a), a), a), past)
    else
      Interleave(req, if schedule[0] then ResumePast(g, past) else ResumeSchema(req, g, a), schedule[1..], past, a)
  }

  function FirstRound(req: Request, s: State, a: Answers): State {
    Interleave(req, Gather(s, false, AtEmbedding), a.schedule, a.past, a.schema).state
  }
}
