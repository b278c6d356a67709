/**
 * The scope and the prompt context only grow (agent/react_executor.py): over each action, and over
 * every interleaving of the two retrievals that the first round runs concurrently.
 */
module PlannerFirstRound {
  import opened Text
  import opened TableNames
  import opened PlannerMerges
  import opened PlannerActions

  /* ---- the scope ---- */

  // Tables that the corrections bring into scope.
  function CorrectionTables(corrections: seq<Correction>): set<string> {
    if corrections == [] then {}
    else
      var last := |corrections| - 1;
      CorrectionTables(corrections[..last]) + Added(Names(corrections[last].tables))
  }

  lemma {:induction false} CorrectionsWiden(scope: seq<string>, corrections: seq<Correction>)
    requires Stored(scope)
    ensures var r := ScopeWithCorrections(scope, corrections);
            && Stored(r) && scope <= r
            && forall x :: x in r <==> x in scope || x in CorrectionTables(corrections)
  {
    if corrections != [] {
      var last := |corrections| - 1;
      CorrectionsWiden(scope, corrections[..last]);
      MergeStored(ScopeWithCorrections(scope, corrections[..last]), Names(corrections[last].tables));
    }
  }

  // `next` holds the old scope as a prefix, and beyond it exactly the given tables.
  ghost predicate Widens(old_: seq<string>, more: set<string>, next: seq<string>) {
    Stored(next) && old_ <= next && forall x :: x in next <==> x in old_ || x in more
  }

  ghost function GatherTables(g: Gather, past: PastAnswer, a: SchemaAnswer): set<string> {
    (if g.pastDone then CorrectionTables(past.corrections) else {})
    + (if g.at.AtColumns? || g.at.Over? then Added(a.tables) else {})
  }

  ghost predicate GatherWidens(scope: seq<string>, g: Gather, past: PastAnswer, a: SchemaAnswer) {
    Widens(scope, GatherTables(g, past, a), g.state.tablesInScope)
  }

  lemma ResumePastWidens(scope: seq<string>, g: Gather, past: PastAnswer, a: SchemaAnswer)
    requires GatherWidens(scope, g, past, a)
    ensures GatherWidens(scope, ResumePast(g, past), past, a)
  {
    CorrectionsWiden(g.state.tablesInScope, past.corrections);
  }

  lemma ResumeSchemaWidens(req: Request, scope: seq<string>, g: Gather, past: PastAnswer, a: SchemaAnswer)
    requires GatherWidens(scope, g, past, a)
    ensures GatherWidens(scope, ResumeSchema(req, g, a), past, a)
  {
    MergeStored(g.state.tablesInScope, a.tables);
  }

  // How many stretches of the schema coroutine are behind it.
  function Progress(at: SchemaPoint): nat {
    match at
    case AtEmbedding => 0
    case AtGroups => 1
    case AtColumns(_) => 2
    case Over => 3
  }

  lemma ResumePastAdvances(g: Gather, past: PastAnswer)
    ensures ResumePast(g, past).pastDone && ResumePast(g, past).at == g.at
  {
  }

  lemma ResumeSchemaAdvances(req: Request, g: Gather, a: SchemaAnswer)
    ensures var next := ResumeSchema(req, g, a);
            next.pastDone == g.pastDone
            && Progress(next.at) == if Progress(g.at) < 3 then Progress(g.at) + 1 else 3
  {
  }

  lemma FinishWidens(req: Request, scope: seq<string>, g: Gather, past: PastAnswer, a: SchemaAnswer)
    requires GatherWidens(scope, g, past, a)
    ensures var done := Interleave(req, g, [], past, a);
            GatherWidens(scope, done, past, a) && done.pastDone && Progress(done.at) == 3
  {
    hide ResumeSchema, ResumePast, GatherWidens;
    var g1 := ResumeSchema(req, g, a);
    var g2 := ResumeSchema(req, g1, a);
    var g3 := ResumeSchema(req, g2, a);
    ResumeSchemaWidens(req, scope, g, past, a);
    ResumeSchemaWidens(req, scope, g1, past, a);
    ResumeSchemaWidens(req, scope, g2, past, a);
    ResumePastWidens(scope, g3, past, a);
    ResumeSchemaAdvances(req, g, a);
    ResumeSchemaAdvances(req, g1, a);
    ResumeSchemaAdvances(req, g2, a);
    ResumePastAdvances(g3, past);
  }

  lemma {:induction false} InterleaveWidens(
    req: Request, scope: seq<string>, g: Gather, schedule: seq<bool>, past: PastAnswer, a: SchemaAnswer)
    requires GatherWidens(scope, g, past, a)
    ensures var done := Interleave(req, g, schedule, past, a);
            GatherWidens(scope, done, past, a) && done.pastDone && Progress(done.at) == 3
    decreases |schedule|
  {
    hide ResumeSchema, ResumePast, GatherWidens;
    if schedule == [] {
      FinishWidens(req, scope, g, past, a);
    } else if schedule[0] {
      ResumePastWidens(scope, g, past, a);
      InterleaveWidens(req, scope, ResumePast(g, past), schedule[1..], past, a);
    } else {
      ResumeSchemaWidens(req, scope, g, past, a);
      InterleaveWidens(req, scope, ResumeSchema(req, g, a), schedule[1..], past, a);
    }
  }

  // Whatever the schedule, the first round loses no table and invents none: the old scope stays in
  // front, and the tables after it are those of the corrections and of the retrieved groups.
  lemma FirstRoundLosesNothing(req: Request, s: State, a: Answers)
    requires Stored(s.tablesInScope)
    ensures Widens(s.tablesInScope, CorrectionTables(a.past.corrections) + Added(a.schema.tables),
                   FirstRound(req, s, a).tablesInScope)
  {
    InterleaveWidens(req, s.tablesInScope, Gather(s, false, AtEmbedding), a.schedule, a.past, a.schema);
  }

  // Tables that executing an action brings into scope.
  function Brings(action: Action, a: Answers): set<string> {
    match action
    case RetrievePastCorrections => CorrectionTables(a.past.corrections)
    case RetrieveSchemaForTables => Added(a.schema.tables)
    case RetrieveMoreContext => Added(a.schema.tables)
    case FetchSchema => Added(a.schema.tables)
    case _ => {}
  }

  lemma SchemaActionWidens(req: Request, s: State, input: string, a: SchemaAnswer)
    requires Stored(s.tablesInScope)
    ensures Widens(s.tablesInScope, Added(a.tables), SchemaAction(req, s, input, a).tablesInScope)
  {
    MergeStored(s.tablesInScope, a.tables);
  }

  lemma ActionWidens(req: Request, s: State, action: Action, input: string, a: Answers)
    requires Stored(s.tablesInScope)
    ensures Widens(s.tablesInScope, Brings(action, a), Execute(req, s, action, input, a).0.tablesInScope)
  {
    hide SchemaAction, Added, MergeContext, Stored, ReviewWarnings, TablesUsed, ScopeWithCorrections, CorrectionTables,
         Names, ParseCsv, BlockingWarnings, InfoWarnings;
    match action
    case RetrievePastCorrections => CorrectionsWiden(s.tablesInScope, a.past.corrections);
    case RetrieveSchemaForTables => SchemaActionWidens(req, s, input, a.schema);
    case RetrieveMoreContext => SchemaActionWidens(req, s, input, a.schema);
    case FetchSchema => SchemaActionWidens(req, s, input, a.schema);
    case _ =>
  }

  /* ---- the context ---- */

  // The blocks that actions merge into the context; the empty block merges nothing.
  function PastBlock(a: PastAnswer): string {
    if a.corrections == [] then "" else "PAST CORRECTIONS:\n" + a.text
  }

  function ColumnsBlock(targets: seq<string>, a: SchemaAnswer): string {
    if ParsedColumns(targets, a) == [] then "" else "RETRIEVED COLUMNS:\n" + a.columnsText
  }

  function SampleBlock(a: SampleAnswer): string {
    if a.queries == [] then "" else "SAMPLE QUERIES:\n" + a.text
  }

  function JoinBlock(s: State, input: string, a: JoinAnswer): string {
    if |Names(OrElse(ParseCsv(input), s.tablesInScope))| < 2 || a.paths == [] then ""
    else "JOIN PATHS:\n" + a.text
  }

  // `next` is a stripped context that holds the old one and the block.
  ghost predicate Holds(current: string, block: string, next: string) {
    Strip(next) == next && Contains(next, current) && Contains(next, Strip(block))
  }

  lemma MergeHolds(current: string, block: string)
    requires Strip(current) == current
    ensures Holds(current, block, MergeContext(current, block))
  {
    ContainsItself(current);
    ContextKeepsBlocks(current, block, current);
  }

  lemma PastHolds(s: State, a: PastAnswer)
    requires Strip(s.context) == s.context
    ensures Holds(s.context, PastBlock(a), PastSegment(s, a).context)
  {
    MergeHolds(s.context, PastBlock(a));
    assert Strip("") == "";
  }

  lemma GroupsHold(req: Request, s: State, input: string, a: SchemaAnswer)
    requires Strip(s.context) == s.context
    ensures Holds(s.context, a.context, GroupsSegment(req, s, input, a).context)
  {
    MergeHolds(s.context, a.context);
  }

  lemma ColumnsHold(s: State, targets: seq<string>, a: SchemaAnswer)
    requires Strip(s.context) == s.context
    ensures Holds(s.context, ColumnsBlock(targets, a), ColumnsSegment(s, targets, a).context)
  {
    MergeHolds(s.context, ColumnsBlock(targets, a));
    assert Strip("") == "";
  }

  lemma JoinsHold(s: State, input: string, a: JoinAnswer)
    requires Strip(s.context) == s.context
    ensures Holds(s.context, JoinBlock(s, input, a), JoinAction(s, input, a).context)
  {
    MergeHolds(s.context, JoinBlock(s, input, a));
    assert Strip("") == "";
  }

  lemma SamplesHold(s: State, a: SampleAnswer)
    requires Strip(s.context) == s.context
    ensures Holds(s.context, SampleBlock(a), SampleAction(s, a).context)
  {
    MergeHolds(s.context, SampleBlock(a));
    assert Strip("") == "";
  }

  // The blocks one resumption merges.
  function PastMerges(g: Gather, past: PastAnswer): seq<string> {
    if g.pastDone then [] else [PastBlock(past)]
  }

  function SchemaMerges(g: Gather, a: SchemaAnswer): seq<string> {
    match g.at
    case AtGroups => [a.context]
    case AtColumns(targets) => [ColumnsBlock(targets, a)]
    case _ => []
  }

  // Every block merged along a schedule, in order.
  function Merged(req: Request, g: Gather, schedule: seq<bool>, past: PastAnswer, a: SchemaAnswer): seq<string>
    decreases |schedule|
  {
    if schedule == [] then
      var g1 := ResumeSchema(req, g, a);
      var g2 := ResumeSchema(req, g1, a);
      SchemaMerges(g, a) + (SchemaMerges(g1, a) + (SchemaMerges(g2, a)
      + PastMerges(ResumeSchema(req, g2, a), past)))
    else if schedule[0] then
      PastMerges(g, past) + Merged(req, ResumePast(g, past), schedule[1..], past, a)
    else
      SchemaMerges(g, a) + Merged(req, ResumeSchema(req, g, a), schedule[1..], past, a)
  }

  // The context holds the old one and every one of the blocks.
  ghost predicate HoldsAll(current: string, blocks: seq<string>, next: string) {
    && Strip(next) == next && Contains(next, current)
    && forall i :: 0 <= i < |blocks| ==> Contains(next, Strip(blocks[i]))
  }

  lemma HoldsAllOn(current: string, blocks: seq<string>, middle: string, more: seq<string>, next: string)
    requires HoldsAll(current, blocks, middle) && HoldsAll(middle, more, next)
    ensures HoldsAll(current, blocks + more, next)
  {
    ContainsTransitive(next, middle, current);
    forall i | 0 <= i < |blocks|
      ensures Contains(next, Strip(blocks[i]))
    {
      ContainsTransitive(next, middle, Strip(blocks[i]));
    }
    var all := blocks + more;
    forall i | 0 <= i < |all|
      ensures Contains(next, Strip(all[i]))
    {
      if i >= |blocks| {
        assert all[i] == more[i - |blocks|];
      }
    }
  }

  lemma HoldsAllNothing(current: string)
    requires Strip(current) == current
    ensures HoldsAll(current, [], current)
  {
    ContainsItself(current);
  }

  lemma ResumePastHolds(g: Gather, past: PastAnswer)
    requires Strip(g.state.context) == g.state.context
    ensures HoldsAll(g.state.context, PastMerges(g, past), ResumePast(g, past).state.context)
  {
    if g.pastDone {
      HoldsAllNothing(g.state.context);
    } else {
      PastHolds(g.state, past);
    }
  }

  lemma ResumeSchemaHolds(req: Request, g: Gather, a: SchemaAnswer)
    requires Strip(g.state.context) == g.state.context
    ensures HoldsAll(g.state.context, SchemaMerges(g, a), ResumeSchema(req, g, a).state.context)
  {
    match g.at
    case AtGroups => GroupsHold(req, g.state, "", a);
    case AtColumns(targets) => ColumnsHold(g.state, targets, a);
    case _ => HoldsAllNothing(g.state.context);
  }

  lemma FinishHolds(req: Request, g: Gather, past: PastAnswer, a: SchemaAnswer)
    requires Strip(g.state.context) == g.state.context
    ensures HoldsAll(g.state.context, Merged(req, g, [], past, a), Interleave(req, g, [], past, a).state.context)
  {
    var g1 := ResumeSchema(req, g, a);
    var g2 := ResumeSchema(req, g1, a);
    var g3 := ResumeSchema(req, g2, a);
    var g4 := ResumePast(g3, past);
    ResumeSchemaHolds(req, g, a);
    ResumeSchemaHolds(req, g1, a);
    ResumeSchemaHolds(req, g2, a);
    ResumePastHolds(g3, past);
    HoldsAllOn(g2.state.context, SchemaMerges(g2, a), g3.state.context, PastMerges(g3, past), g4.state.context);
    HoldsAllOn(g1.state.context, SchemaMerges(g1, a), g2.state.context,
               SchemaMerges(g2, a) + PastMerges(g3, past), g4.state.context);
    HoldsAllOn(g.state.context, SchemaMerges(g, a), g1.state.context,
               SchemaMerges(g1, a) + (SchemaMerges(g2, a) + PastMerges(g3, past)), g4.state.context);
  }

  // No interleaving loses a block: when both retrievals are over the context still holds what it
  // held before and every block that either of them merged.
  lemma {:induction false} InterleaveKeepsContext(
    req: Request, g: Gather, schedule: seq<bool>, past: PastAnswer, a: SchemaAnswer)
    requires Strip(g.state.context) == g.state.context
    ensures HoldsAll(g.state.context, Merged(req, g, schedule, past, a),
                     Interleave(req, g, schedule, past, a).state.context)
    decreases |schedule|
  {
    if schedule == [] {
      FinishHolds(req, g, past, a);
    } else if schedule[0] {
      var next := ResumePast(g, past);
      ResumePastHolds(g, past);
      InterleaveKeepsContext(req, next, schedule[1..], past, a);
      HoldsAllOn(g.state.context, PastMerges(g, past), next.state.context,
                 Merged(req, next, schedule[1..], past, a),
                 Interleave(req, next, schedule[1..], past, a).state.context);
    } else {
      var next := ResumeSchema(req, g, a);
      ResumeSchemaHolds(req, g, a);
      InterleaveKeepsContext(req, next, schedule[1..], past, a);
      HoldsAllOn(g.state.context, SchemaMerges(g, a), next.state.context,
                 Merged(req, next, schedule[1..], past, a),
                 Interleave(req, next, schedule[1..], past, a).state.context);
    }
  }

  // The blocks an action merges outside the first round.
  function ActionMerges(req: Request, s: State, action: Action, input: string, a: Answers): seq<string> {
    match action
    case RetrievePastCorrections => [PastBlock(a.past)]
    case RetrieveJoinPaths => [JoinBlock(s, input, a.joins)]
    case RetrieveSampleQueries => [SampleBlock(a.samples)]
    case RetrieveSchemaForTables => SchemaActionMerges(req, s, input, a.schema)
    case RetrieveMoreContext => SchemaActionMerges(req, s, input, a.schema)
    case FetchSchema => SchemaActionMerges(req, s, input, a.schema)
    case _ => []
  }

  function SchemaActionMerges(req: Request, s: State, input: string, a: SchemaAnswer): seq<string> {
    [a.context] + [ColumnsBlock(TargetTables(req, MergeOrdered(s.tablesInScope, a.tables), input), a)]
  }

  lemma SchemaActionHolds(req: Request, s: State, input: string, a: SchemaAnswer)
    requires Strip(s.context) == s.context
    ensures HoldsAll(s.context, SchemaActionMerges(req, s, input, a), SchemaAction(req, s, input, a).context)
  {
    hide HoldsAll, Holds, GroupsSegment, ColumnsSegment, TargetTables, ColumnsBlock, MergeOrdered, StripOf;
    var embedded := EmbedSegment(s, a);
    var grouped := GroupsSegment(req, embedded, input, a);
    var targets := TargetTables(req, grouped.tablesInScope, input);
    GroupsHold(req, embedded, input, a);
    HoldsOne(s.context, a.context, grouped.context);
    GroupedScope(req, embedded, input, a);
    HeldIsStripped(s.context, [a.context], grouped.context);
    ColumnsHold(grouped, targets, a);
    HoldsOne(grouped.context, ColumnsBlock(targets, a), ColumnsSegment(grouped, targets, a).context);
    HoldsAllOn(s.context, [a.context], grouped.context, [ColumnsBlock(targets, a)],
               ColumnsSegment(grouped, targets, a).context);
  }

  lemma HoldsOne(current: string, block: string, next: string)
    requires Holds(current, block, next)
    ensures HoldsAll(current, [block], next)
  {
    hide StripOf, Contains;
  }

  lemma HeldIsStripped(current: string, blocks: seq<string>, next: string)
    requires HoldsAll(current, blocks, next)
    ensures Strip(next) == next
  {
  }

  lemma GroupedScope(req: Request, s: State, input: string, a: SchemaAnswer)
    ensures GroupsSegment(req, s, input, a).tablesInScope == MergeOrdered(s.tablesInScope, a.tables)
  {
    hide MergeOrdered, MergeContext, FocusSeed;
  }

  lemma ActionKeepsContext(req: Request, s: State, action: Action, input: string, a: Answers)
    requires Strip(s.context) == s.context
    ensures HoldsAll(s.context, ActionMerges(req, s, action, input, a),
                     Execute(req, s, action, input, a).0.context)
  {
    hide HoldsAll, Holds, PastSegment, SchemaAction, JoinAction, SampleAction, PastBlock, JoinBlock, SampleBlock,
         SchemaActionMerges, StripOf, ReviewWarnings, TablesUsed;
    match action
    case RetrievePastCorrections =>
      PastHolds(s, a.past);
      HoldsOne(s.context, PastBlock(a.past), PastSegment(s, a.past).context);
    case RetrieveJoinPaths =>
      JoinsHold(s, input, a.joins);
      HoldsOne(s.context, JoinBlock(s, input, a.joins), JoinAction(s, input, a.joins).context);
    case RetrieveSampleQueries =>
      SamplesHold(s, a.samples);
      HoldsOne(s.context, SampleBlock(a.samples), SampleAction(s, a.samples).context);
    case RetrieveSchemaForTables => SchemaActionHolds(req, s, input, a.schema);
    case RetrieveMoreContext => SchemaActionHolds(req, s, input, a.schema);
    case FetchSchema => SchemaActionHolds(req, s, input, a.schema);
    case _ => HoldsAllNothing(s.context);
  }

  // In particular the first round keeps the old context and the corrections and group blocks.
  lemma FirstRoundKeepsContext(req: Request, s: State, a: Answers)
    requires Strip(s.context) == s.context
    ensures HoldsAll(s.context, Merged(req, Gather(s, false, AtEmbedding), a.schedule, a.past, a.schema),
                     FirstRound(req, s, a).context)
  {
    InterleaveKeepsContext(req, Gather(s, false, AtEmbedding), a.schedule, a.past, a.schema);
  }

  // The blocks still to be merged when the coroutines stand where they stand.
  ghost predicate Complete(g: Gather, blocks: seq<string>, past: PastAnswer, a: SchemaAnswer) {
    && (!g.pastDone ==> PastBlock(past) in blocks)
    && (Progress(g.at) <= 1 ==> a.context in blocks)
    && (Progress(g.at) <= 2 ==> exists targets :: ColumnsBlock(targets, a) in blocks)
  }

  lemma CompletePast(g: Gather, next: Gather, blocks: seq<string>, past: PastAnswer, a: SchemaAnswer)
    requires next.pastDone && next.at == g.at && Complete(next, blocks, past, a)
    ensures Complete(g, PastMerges(g, past) + blocks, past, a)
  {
    var all := PastMerges(g, past) + blocks;
    if Progress(g.at) <= 2 {
      var targets :| ColumnsBlock(targets, a) in blocks;
      assert ColumnsBlock(targets, a) in all;
    }
  }

  lemma CompleteSchema(g: Gather, next: Gather, blocks: seq<string>, past: PastAnswer, a: SchemaAnswer)
    requires next.pastDone == g.pastDone && Complete(next, blocks, past, a)
    requires Progress(next.at) == if Progress(g.at) < 3 then Progress(g.at) + 1 else 3
    ensures Complete(g, SchemaMerges(g, a) + blocks, past, a)
  {
    var all := SchemaMerges(g, a) + blocks;
    if Progress(g.at) <= 1 {
      var targets :| ColumnsBlock(targets, a) in blocks;
      assert ColumnsBlock(targets, a) in all;
    } else if g.at.AtColumns? {
      assert all[0] == ColumnsBlock(g.at.targets, a);
      assert ColumnsBlock(g.at.targets, a) in all;
    }
  }

  lemma FinishIsComplete(req: Request, g: Gather, past: PastAnswer, a: SchemaAnswer)
    ensures Complete(g, Merged(req, g, [], past, a), past, a)
  {
    hide ResumeSchema, ResumePast, Complete, ColumnsBlock, PastBlock, SchemaMerges, PastMerges;
    var g1 := ResumeSchema(req, g, a);
    var g2 := ResumeSchema(req, g1, a);
    var g3 := ResumeSchema(req, g2, a);
    ResumeSchemaAdvances(req, g, a);
    ResumeSchemaAdvances(req, g1, a);
    ResumeSchemaAdvances(req, g2, a);
    LastIsComplete(g3, past, a);
    CompleteSchema(g2, g3, PastMerges(g3, past), past, a);
    CompleteSchema(g1, g2, SchemaMerges(g2, a) + PastMerges(g3, past), past, a);
    CompleteSchema(g, g1, SchemaMerges(g1, a) + (SchemaMerges(g2, a) + PastMerges(g3, past)), past, a);
  }

  lemma LastIsComplete(g: Gather, past: PastAnswer, a: SchemaAnswer)
    requires Progress(g.at) == 3
    ensures Complete(g, PastMerges(g, past), past, a)
  {
  }

  // Both coroutines finish: the merged blocks hold those of the corrections, the groups and the columns.
  lemma {:induction false} MergedIsComplete(
    req: Request, g: Gather, schedule: seq<bool>, past: PastAnswer, a: SchemaAnswer)
    ensures Complete(g, Merged(req, g, schedule, past, a), past, a)
    decreases |schedule|
  {
    hide ResumeSchema, ResumePast, Complete, ColumnsBlock, PastBlock, SchemaMerges, PastMerges;
    if schedule == [] {
      FinishIsComplete(req, g, past, a);
    } else if schedule[0] {
      var next := ResumePast(g, past);
      ResumePastAdvances(g, past);
      MergedIsComplete(req, next, schedule[1..], past, a);
      CompletePast(g, next, Merged(req, next, schedule[1..], past, a), past, a);
    } else {
      var next := ResumeSchema(req, g, a);
      ResumeSchemaAdvances(req, g, a);
      MergedIsComplete(req, next, schedule[1..], past, a);
      CompleteSchema(g, next, Merged(req, next, schedule[1..], past, a), past, a);
    }
  }
}
