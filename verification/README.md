# Verified models of ascetic_ddd

Dafny models of five parts of ascetic_ddd, a Python toolkit for domain-driven design, with proofs
of what each of them is for.

**Graph algorithms.** `Tarjan` is Tarjan's algorithm with its explicit stack of two-phase frames,
kept as a class whose fields change in nested loops; the search invariant behind it (`SccSearch`)
ties index, lowlink, node stack and call stack together. `Scc` has the result: any finite graph is
split into exactly its classes of mutual reachability, leaves first. `Kahn` is the heap-driven sort
and `Toposort` its result: on distinct nodes it begins with the lexicographically least topological
order of everything no cycle holds back, and ends with the rest by rank. `Digraphs` has what both
share.

**Query DSL.** `Query` is the operator tree with the synchronous evaluator; evaluation may raise, as
comparing a string with a number does in Python, and `QueryVerdicts` says what its verdicts mean.
`QueryParser` parses, normalises and prints, and `QuerySyntax` says which values are queries and
that `$eq` is free to be left out. `QueryMergeLaws` and `QueryMeet` treat merging as a partial meet,
up to the operators' own `==` (`QueryMerge`), which ignores the order of fields but not of And
operands; `QueryClashes` says when merging fails and with which error. `Relations` has the tables
that references lead to, and `EvaluateWalker` the evaluator that follows them. `PgCompiler` says
what the PostgreSQL compiler emits, with each placeholder carrying the parameter it is meant for;
`PgSql` gives the emitted predicates a three-valued meaning over documents and tables, with `@>` as
in section 8.14.3 of the PostgreSQL manual, "jsonb Containment and Existence"; `PgCorrectness`
proves that compiling a parsed query preserves its meaning, and `PgRelations` what that comes to for
`$rel` and where it ends; `PgQueryCompiler` is the compiler itself, with text and parameters in two
separate lists, which `PgAlignment` proves to fit each other.

**Outbox and inbox.** `OutboxProtocol` and `InboxProtocol` are state machines over a database:
transactions that commit in any order, sequences, row locks, crashes. Each SQL statement is one
step, and the theorems (`OutboxTheorems`, `InboxTheorems`) speak of every reachable state of every
interleaving; `InboxScans` follows the growing offset of one worker's scan among the others.
`Outboxes` and `Inboxes` have the objects whose methods perform these steps; the whole life of an
object is one run.

**Sagas.** `SagaMachine` runs slips of leaf, parallel and fallback activities, nested to any depth,
one small step at a time with parallel branches interleaved freely, and `SagaTheorems` says what
every such run comes to. `RoutingSlips` has the slip and the activities as mutable objects and
loops, with branches run one after another; `SlipTraces` has the exact sequence of effects done and
undone by these loops; `ActivityHosts` drives the same slip by messages, for any deployment of
hosts.

**Change managers.** `DagChange` keeps two mirrored multimaps (`Multimaps`), collects what a change
reaches and updates it in Kahn order. `DagChangeTyped` adds subjects and type bindings,
`TypeBindings` says what each operation does to them, and `BindingTheorems` what a whole history of
operations amounts to.

Exceptions are values (`None`, `Raises`, `InvalidOperation`, `Conflict`, `Raised`). Python dicts are
association lists in insertion order with distinct keys. What is outside the program comes in as a
parameter: the order `sorted` puts a set in, the rows the database answers, whether a subscriber
raises, whether a leaf activity succeeds, the queue addresses of activities, what the database makes
of an operand that is passed unencoded. The two kinds of resolver, which wrap the same providers, are
one value that says for each field where its reference leads.

`dafny verify dfyconfig.toml` checks everything.

## Model

| member | source | states |
|---|---|---|
| Tarjan.TarjanState.constructor | ascetic_ddd/graph/scc.py:42-50 | a fresh state satisfies the search invariant with no call open |
| Tarjan.TarjanState.GetSortedNeighbours | ascetic_ddd/graph/scc.py:52-58 | the memo always holds the fixed enumeration of the neighbour set |
| Tarjan.TarjanState.ExtractScc | ascetic_ddd/graph/scc.py:60-69 | pops exactly the part of the stack from the root up, as one set, and keeps stack and on-stack set equal |
| Tarjan.TarjanState.InitializeNode | ascetic_ddd/graph/scc.py:71-76 | an unvisited neighbour becomes the newest open call and the search invariant holds again |
| Tarjan.FinishChild | ascetic_ddd/graph/scc.py:90-94 | after a child has returned, whether its component was extracted or stays open, the parent's lowlink is again what the invariant asks |
| Tarjan.PassVisited | ascetic_ddd/graph/scc.py:107-108 | passing a visited neighbour keeps the invariant whether or not it is on the stack |
| Tarjan.FinishNode | ascetic_ddd/graph/scc.py:111-114 | a node with no neighbours left is a root exactly when it closes a whole component; otherwise it returns open to its caller |
| Tarjan.StrongConnect | ascetic_ddd/graph/scc.py:79-114 | the explicit-stack loop ends, has visited the start and possibly more, and leaves no call open |
| Scc.AllNodes | ascetic_ddd/graph/scc.py:132-135 | all nodes, including those that occur only as targets |
| Scc.StronglyConnectedComponents | ascetic_ddd/graph/scc.py:117-144 | for every graph the sets are exactly the classes of mutual reachability, each node in one of them, and no edge leads from a set to one listed later |
| Scc.CircularMeaning | ascetic_ddd/graph/scc.py:150-152 | the size and self-loop test picks a component exactly if one of its nodes is on a cycle |
| Scc.SortByLeast | ascetic_ddd/graph/scc.py:171 | sorting by minimum keeps the same disjoint sets and puts their minima in order |
| Scc.FindCircularSccs | ascetic_ddd/graph/scc.py:147-171 | the result is exactly the mutual-reachability classes that contain a cycle, ordered by their least elements |
| Scc.CircularExactly | ascetic_ddd/graph/scc.py:160-169 | filtering the components keeps all classes with a cycle and no others |
| Scc.TangledIsBelowCircular | ascetic_ddd/graph/scc.py:147-169 | a node is tangled exactly if it is reachable from a component that is reported as circular |
| SccSearch.VisitKeeps | ascetic_ddd/graph/scc.py:100-106 | opening a call on an unvisited neighbour keeps the link between indices, lowlinks, stack and calls |
| SccSearch.AdvanceKeeps | ascetic_ddd/graph/scc.py:107-110 | so does passing a neighbour that has been visited |
| SccSearch.MergeKeeps | ascetic_ddd/graph/scc.py:91-94 | so does returning from a child whose lowlink is below its index |
| SccSearch.DropKeeps | ascetic_ddd/graph/scc.py:111-114 | a root's part of the stack is a whole component whose outgoing edges lead only to extracted ones |
| Kahn.HeapPop | ascetic_ddd/graph/graph.py:57 | the popped node has the least (key, input index) of the queue |
| Kahn.CountEdges | ascetic_ddd/graph/graph.py:38-43 | counts for each node exactly its distinct predecessors among the given nodes |
| Kahn.InitialReady | ascetic_ddd/graph/graph.py:50-53 | queues exactly the nodes that nothing points to |
| Kahn.SortAllNeighbours | ascetic_ddd/graph/graph.py:45-48 | each neighbour set is listed without repetition, by rank |
| Kahn.RelaxAll | ascetic_ddd/graph/graph.py:59-62 | afterwards every counter is the number of predecessors not yet emitted and the queue holds exactly the nodes at zero |
| Toposort.EmitLeast | ascetic_ddd/graph/graph.py:56-62 | one round keeps the emitted part ahead of every topological order that differs from it |
| Kahn.SortByRank | ascetic_ddd/graph/graph.py:64-67 | the remaining nodes are a permutation ordered by (key, input index) |
| Toposort.StableToposort | ascetic_ddd/graph/graph.py:19-69 | terminates on every input; on distinct nodes, with any cycles, the result is a permutation made of the least topological order of the untangled nodes and then the tangled ones by rank |
| Kahn.PickLeads | ascetic_ddd/graph/graph.py:56-58 | choosing the least ready node keeps the prefix lexicographically at most every topological order |
| Kahn.KahnEnd | ascetic_ddd/graph/graph.py:64-69 | the nodes left when the queue runs empty are exactly those at or below a cycle |
| Toposort.AcyclicMeansLeast | ascetic_ddd/graph/graph.py:33-62 | on an acyclic graph the result is the lexicographically least of all topological orders |
| Toposort.ViolatedEdgesAreTangled | ascetic_ddd/graph/graph.py:50-69 | an edge can point backwards only between two nodes that a cycle holds back |
| Digraphs.KahnLeftover | ascetic_ddd/graph/graph.py:55-68 | in a complete Kahn run a node is left over exactly if it is reachable from a cycle |
| QueryParser.ParseOperatorDict | ascetic_ddd/faker/domain/query/parser.py:90-99 | the loop that fills the operand list yields the And of the operators in dict order, or fails where one of them does |
| QueryParser.ParseFieldDict | ascetic_ddd/faker/domain/query/parser.py:188-193 | the loop that fills the field dict yields the composite of the parsed fields in order, or fails where one of them does |
| QueryParser.NormalizeIsNormal | ascetic_ddd/faker/domain/query/parser.py:196-237 | no equality holds an operator after normalising |
| QueryParser.NormalizeIsIdempotent | ascetic_ddd/faker/domain/query/parser.py:196-237 | normalising twice is normalising once |
| QueryParser.PrintAnd | ascetic_ddd/faker/domain/query/visitors.py:64-69 | the loop that updates one dict with each operand prints the And |
| QueryParser.PrintThenParse | ascetic_ddd/faker/domain/query/visitors.py:24-78 | parsing what a printable tree prints gives that tree back |
| QueryParser.AndSurvivesExactly | ascetic_ddd/faker/domain/query/visitors.py:64-69 | an And of single operators survives printing and parsing exactly if their keys are pairwise distinct |
| QueryParser.ParsedAndHasEveryEntry | ascetic_ddd/faker/domain/query/parser.py:90-99 | where no $eq holds a dict, a parsed And has exactly as many operands as its dict has entries |
| QuerySyntax.AcceptsExactly | ascetic_ddd/faker/domain/query/parser.py:68-193 | the parser accepts exactly the bare values, the non-empty dicts of fields with queries, and the non-empty dicts of known operators with proper operands, and raises on everything else |
| QuerySyntax.EqIsImplicit | ascetic_ddd/faker/domain/query/parser.py:68-70 | a bare value is its equality, and any query, dict or not, is the same query under `$eq` |
| QuerySyntax.SpellingIsFree | ascetic_ddd/faker/domain/query/parser.py:126-137 | two values that differ only in `$eq` spelled out or left out, at any depth and any number of times, wherever a query stands, parse to the same query |
| QuerySyntax.NestedEqualityParsesBack | ascetic_ddd/faker/domain/query/visitors.py:38-41 | an equality that still holds an operator prints it under `$eq`, and parsing gives the operator back |
| QueryMerge.QTrans | ascetic_ddd/faker/domain/query/operators.py:565-568 | equality of operators is transitive, with fields compared as dicts |
| QueryMerge.QSym | ascetic_ddd/faker/domain/query/operators.py:565-568 | and symmetric |
| QueryMerge.FieldsEquality | ascetic_ddd/faker/domain/query/operators.py:565-568 | equal composites are those with the same fields and equal operators under each, in any order |
| QueryMergeLaws.AddComposite | ascetic_ddd/faker/domain/query/operators.py:576-585 | the loop that fills one dict computes the field-wise sum, with the error of whichever field fails first; FirstClashDecides says which that is |
| QueryClashes.FirstClashDecides | ascetic_ddd/faker/domain/query/operators.py:576-585 | merging succeeds exactly if all operators that meet, at any depth, are equal; otherwise the error is decided by the first pair in the right operand's field order that is not: MergeConflict if both are of one class, TypeError if not |
| QueryClashes.LeavesMerge | ascetic_ddd/faker/domain/query/operators.py:170-175 | of operators that are not both composites or both relations, equal ones merge, unequal ones of one class conflict, and others are unsupported |
| QueryMergeLaws.AddFieldsIsSum | ascetic_ddd/faker/domain/query/operators.py:576-585 | under each field the sum holds the one operator present or the merge of both, and it is defined exactly if all of these are |
| QueryMergeLaws.AddIsIdempotent | ascetic_ddd/faker/domain/query/operators.py:170-175 | merging any query with itself is defined and gives an equal query |
| QueryMergeLaws.AddCommutes | ascetic_ddd/faker/domain/query/operators.py:540-585 | a+b and b+a are both defined with equal results, or both fail |
| QueryMergeLaws.AddAssociates | ascetic_ddd/faker/domain/query/operators.py:540-585 | (a+b)+c and a+(b+c) are both defined with equal results, or both fail |
| QueryMergeLaws.AddRespects | ascetic_ddd/faker/domain/query/operators.py:540-585 | merging equal queries gives equal results |
| QueryVerdicts.AndOrMean | ascetic_ddd/faker/domain/query/evaluate_visitor.py:174-184 | an And is met exactly where all operands are, an Or refused exactly where all are; one that is met has an operand that is met, and an And that is refused one that is refused |
| QueryVerdicts.AnyElementMeans | ascetic_ddd/faker/domain/query/evaluate_visitor.py:189-195 | `$any` is met exactly by the lists with an element that meets the query before any on which it raises, and refused exactly by what is no list and by lists whose elements all refuse |
| QueryVerdicts.AllElementsMeans | ascetic_ddd/faker/domain/query/evaluate_visitor.py:197-203 | `$all` is met exactly by the lists whose elements all meet the query |
| QueryVerdicts.CompositeMeans | ascetic_ddd/faker/domain/query/evaluate_visitor.py:219-231 | a composite is met exactly by the dicts whose fields meet its operators, a missing field counting as None |
| QueryVerdicts.UnaryMean | ascetic_ddd/faker/domain/query/evaluate_visitor.py:186-215 | `$not` turns a verdict round and lets an error pass, `$len` asks a list for its length, and a `$rel` without a resolver asks what its criteria ask |
| QueryVerdicts.IsNullMeans | ascetic_ddd/faker/domain/query/evaluate_visitor.py:171-172 | on every state `$is_null` with true is equality with None, and with false its negation |
| QueryMeet.EqualVerdicts | ascetic_ddd/faker/domain/query/evaluate_visitor.py:151-217 | equal queries give the same verdict on every state, unless one of them raises |
| QueryMeet.SumAsksBothFieldByField | ascetic_ddd/faker/domain/query/operators.py:576-585 | what a merged query asks of a state can be read off its parts without merging them: of two composites, every field of either, a shared field recursively; of other operators, the left one |
| QueryMeet.MergeIsMeet | ascetic_ddd/faker/domain/query/operators.py:540-585 | a state satisfies a+b exactly if it satisfies both, for every state but those on which evaluating b raises although the state meets both when shared fields are taken from a; on those the law fails |
| QueryMeet.MergeMeetFailsWhereOneRaises | ascetic_ddd/faker/domain/query/evaluate_visitor.py:254-266 | a concrete state of that kind: reordered fields under $not, and a comparison with None that raises |
| QueryMeet.MergeAllInAnyOrder | ascetic_ddd/faker/domain/query/operators.py:576-585 | merging any permutation of criteria fails or succeeds alike, with equal results |
| Relations.FindMeans | ascetic_ddd/faker/infrastructure/repositories/internal_pg_repository.py:95-110 | over a unique key column, what is fetched by a key is the document of the one row that has it |
| EvaluateWalker.WalkIsEvaluate | ascetic_ddd/faker/domain/query/evaluate_visitor.py:70-149 | without `$rel`, or without a resolver, the asynchronous evaluation gives the synchronous verdict on every state |
| PgSql.BindAllErased | ascetic_ddd/faker/infrastructure/query/pg_query_compiler.py:119-126 | filling the placeholders from left to right with the intended parameters restores the predicate that was meant |
| PgShape.VisitSucceeds | ascetic_ddd/faker/infrastructure/query/pg_query_compiler.py:130-354 | on queries with one equality per place and a relation for each `$rel`, a visit never raises, gives out only new aliases and only fills places that were empty |
| PgMeaning.CollectMeans | ascetic_ddd/faker/infrastructure/query/pg_query_compiler.py:297-301 | storing one more equality in the nested dict makes the containment test ask for exactly that one more value |
| PgMeaning.VisitMeans | ascetic_ddd/faker/infrastructure/query/pg_query_compiler.py:130-354 | whatever a compiler has collected so far, visiting a query adds to its statement exactly the verdict of the evaluator that follows references, also inside EXISTS, NOT EXISTS, OR and NOT, and inside the subquery of a relation |
| PgMeaning.RelMeans | ascetic_ddd/faker/infrastructure/query/pg_query_compiler.py:326-354 | the subquery of a `$rel` is true exactly if the object that the evaluator fetches by the field's value meets the criteria; false, not NULL, where the field is missing |
| PgCorrectness.ParseGuarantees | ascetic_ddd/faker/domain/query/parser.py:90-248 | a parsed and normalised query has at most one equality for each path under an And, and no empty operand |
| PgCorrectness.CompilationPreservesMeaning | ascetic_ddd/faker/infrastructure/query/pg_query_compiler.py:119-354 | for every parsed query of the fragment, every document and database of matching shape and every driver that lets the unencoded operands of order comparisons count as jsonb scalars, compiling succeeds and the statement run with its parameters is true exactly if the evaluator with an object resolver says so, and never NULL or an error |
| PgCorrectness.AllOnMissingFieldDiffers | ascetic_ddd/faker/infrastructure/query/pg_query_compiler.py:241-258 | outside the matching shape: $all on a missing field is false for the evaluator and true in SQL |
| PgCorrectness.NullOnMissingFieldDiffers | ascetic_ddd/faker/infrastructure/query/pg_query_compiler.py:297-306 | outside the fragment: equality with null on a missing field |
| PgCorrectness.TrueAgainstOneDiffers | ascetic_ddd/faker/domain/query/evaluate_visitor.py:162-163 | outside the matching shape: Python's True equals 1, jsonb's does not |
| PgCorrectness.TwoEqualitiesLoseOne | ascetic_ddd/faker/infrastructure/query/pg_query_compiler.py:297-301 | two equalities on one path, which no parsed query has, keep only the second |
| PgCorrectness.IsNullOnJsonNullDiffers | ascetic_ddd/faker/infrastructure/query/pg_query_compiler.py:181-186 | outside the matching shape: a JSON null is None for the evaluator and not NULL in SQL |
| PgCorrectness.ListEqualityDiffers | ascetic_ddd/faker/infrastructure/query/pg_query_compiler.py:297-306 | outside the fragment: equality with a list is containment in SQL, which a longer list passes |
| PgCorrectness.OrderOnMissingFieldDiffers | ascetic_ddd/faker/infrastructure/query/pg_query_compiler.py:137-144 | outside the matching shape: an order on a missing field raises for the evaluator and is NULL in SQL |
| PgCorrectness.RejectedOperandDiffers | ascetic_ddd/faker/infrastructure/query/pg_query_compiler.py:140-144 | without such a driver: where the database rejects the unencoded operand, the statement is an error although the evaluator says yes |
| PgRelations.RelatedRowDecides | ascetic_ddd/faker/infrastructure/query/pg_query_compiler.py:326-354 | the statement for a `$rel`, on a field or on the value itself, is true exactly if some row of the resolver's table has the document's value there in its key column and a document that meets the criteria |
| PgRelations.RelatedRowDecidesBelow | ascetic_ddd/faker/infrastructure/query/pg_query_compiler.py:269-282 | the same one level deeper, by the resolver of the outer field, or by the outer resolver where that field has none |
| PgRelations.PlainFieldMeans | ascetic_ddd/faker/infrastructure/query/pg_query_compiler.py:318-324 | on a field that is no reference the statement asks exactly the equalities among the criteria, at any depth, of the field's own value, while the evaluator always says no; so they agree exactly where these equalities do not hold |
| PgRelations.NestedPlainFieldDiffers | ascetic_ddd/faker/infrastructure/query/pg_query_compiler.py:321-324 | and it asks them of the field of that name at the top of the document, also when the field is nested |
| PgRelations.TopRelWithoutRelationDiffers | ascetic_ddd/faker/infrastructure/query/pg_query_compiler.py:316-321 | a `$rel` on the value itself that leads nowhere is dropped, where the evaluator says no |
| PgRelations.RelWithoutResolverRaises | ascetic_ddd/faker/infrastructure/query/pg_query_compiler.py:311-314 | without a resolver a `$rel` raises |
| PgRelations.RelWithoutCriteriaDiffers | ascetic_ddd/faker/infrastructure/query/pg_query_compiler.py:342-354 | outside the fragment: without criteria the statement asks nothing, the evaluator that the object exists |
| PgRelations.RelBesideOperatorRaises | ascetic_ddd/faker/infrastructure/query/pg_query_compiler.py:284-293 | outside the fragment: a `$rel` beside another operator of its field takes the field off the path, and compiling raises when the field is left |
| PgRelations.RelBesideOperatorUnderNotDiffers | ascetic_ddd/faker/infrastructure/query/pg_query_compiler.py:284-293 | outside the fragment: under a negation it does not raise, but the other operator is asked of the place above |
| PgRelations.ElementRelDiffers | ascetic_ddd/faker/domain/query/evaluate_visitor.py:109-115 | outside the fragment: directly under `$any` of a field the evaluator follows the whole array, the statement each element |
| PgRelations.VacuousVanishes | ascetic_ddd/faker/infrastructure/query/pg_query_compiler.py:192-220 | what asks nothing, at any depth, raises nothing, emits nothing, and is left out of an OR |
| PgQueryCompiler.ScalarPgQueryCompiler.Accept | ascetic_ddd/faker/infrastructure/query/pg_query_compiler.py:420-467 | each visit raises exactly where the specification does and leaves text and parameters aligned |
| PgQueryCompiler.ScalarPgQueryCompiler.VisitIn | ascetic_ddd/faker/infrastructure/query/pg_query_compiler.py:433-439 | one comparison per value, bare when there is one and an OR otherwise, each with its value |
| PgQueryCompiler.ScalarPgQueryCompiler.VisitOr | ascetic_ddd/faker/infrastructure/query/pg_query_compiler.py:458-467 | parameters of the sub-compilers are appended in the order of their placeholders |
| PgQueryCompiler.PgQueryCompiler.Accept | ascetic_ddd/faker/infrastructure/query/pg_query_compiler.py:130-293 | each visit raises exactly where the specification does; path, equalities, aliases, text and parameters end as it says |
| PgQueryCompiler.PgQueryCompiler.FlushEq | ascetic_ddd/faker/infrastructure/query/pg_query_compiler.py:303-306 | the containment test and its parameter both go to the front |
| PgQueryCompiler.PgQueryCompiler.VisitIn | ascetic_ddd/faker/infrastructure/query/pg_query_compiler.py:161-179 | one containment test per value, each with its own nested document as parameter |
| PgQueryCompiler.PgQueryCompiler.VisitOr | ascetic_ddd/faker/infrastructure/query/pg_query_compiler.py:192-207 | branches compiled apart are spliced in with their parameters in step; empty ones vanish |
| PgQueryCompiler.PgQueryCompiler.VisitElements | ascetic_ddd/faker/infrastructure/query/pg_query_compiler.py:222-258 | $any and $all become EXISTS and NOT EXISTS over the elements under a new alias |
| PgQueryCompiler.PgQueryCompiler.VisitComposite | ascetic_ddd/faker/infrastructure/query/pg_query_compiler.py:269-282 | path and resolver are restored after each field, and the visit raises where a nested relation has popped the path already |
| PgQueryCompiler.PgQueryCompiler.BuildExistsSubquery | ascetic_ddd/faker/infrastructure/query/pg_query_compiler.py:326-354 | a relation becomes an EXISTS over the related table with its parameters in place |
| PgAlignment.CompileQuery | ascetic_ddd/faker/infrastructure/query/pg_query_compiler.py:119-126 | for every accepted query tree, relations included, binding the k-th placeholder to the k-th parameter gives the predicate that was meant |
| OutboxProtocol.StepKeepsInv | ascetic_ddd/outbox/outbox.py:44-112 | every step of publishers and dispatchers keeps the protocol invariant and takes back nothing that has ended, been committed or been delivered |
| OutboxProtocol.FetchedIsNextUp | ascetic_ddd/outbox/outbox.py:307-329 | what is fetched through an old snapshot but with the latest offset is still the next settled rows of the group, without a gap |
| OutboxProtocol.AckMovesExactly | ascetic_ddd/outbox/outbox.py:345-369 | moving the offset to the last row of a batch acknowledges every wanted row up to there and nothing else |
| OutboxTheorems.NoMessagePassedOver | ascetic_ddd/outbox/outbox.py:307-369 | in every reachable state each committed row a group wants at or below its offset has been delivered, and no open or coming transaction can still put a row there |
| OutboxTheorems.AcknowledgedExactly | ascetic_ddd/outbox/outbox.py:88-112 | the acknowledged batches of a group, end to end, are the committed rows it wants up to its offset by (transaction_id, position), each once |
| OutboxTheorems.ReplayFromTheSameOffset | ascetic_ddd/outbox/outbox.py:92-112 | while the offset stands, whatever crashed or committed, a later batch and an earlier one begin alike: one is a prefix of the other |
| OutboxTheorems.EmptyFetchMeansCaughtUp | ascetic_ddd/outbox/outbox.py:99-100 | an empty fetch means every wanted row below the snapshot's xmin has been acknowledged |
| OutboxTheorems.SomeBatch | ascetic_ddd/outbox/outbox.py:307-329 | the statement that fetches always has an answer |
| OutboxTheorems.BatchIsUnique | ascetic_ddd/outbox/outbox.py:327-328 | and only one |
| Outboxes.Outbox.Publish | ascetic_ddd/outbox/outbox.py:44-62 | one row more, with the caller's transaction id and the next position |
| Outboxes.Outbox.EnsureConsumerGroup | ascetic_ddd/outbox/outbox.py:257-269 | creates the offsets row at (0, 0) if it is missing and leaves it alone otherwise |
| Outboxes.Outbox.FetchMessages | ascetic_ddd/outbox/outbox.py:271-343 | takes the lock with the batch, ends the transaction when there is none, and waits while another dispatcher holds the offsets row |
| Outboxes.Outbox.AckMessage | ascetic_ddd/outbox/outbox.py:345-369 | moves the offset to the last message and commits the batch as acknowledged |
| Outboxes.Outbox.HandOut | ascetic_ddd/outbox/outbox.py:102-104 | delivers the batch in order up to the message on which the subscriber raises |
| Outboxes.Outbox.Dispatch | ascetic_ddd/outbox/outbox.py:64-112 | a round acknowledges the whole batch or leaves the offset where it was, also while it waits for the lock; it touches no other group, and reports no messages only when the group is caught up |
| InboxProtocol.StepKeepsInv | ascetic_ddd/inbox/inbox.py:50-82 | every step of publishers and workers keeps the protocol invariant, the rows as received and the positions as committed |
| InboxProtocol.StepKeepsLocks | ascetic_ddd/inbox/inbox.py:255-268 | no row is ever locked by two workers, although skipped rows stay locked |
| InboxProtocol.MarkerIsOk | ascetic_ddd/inbox/inbox.py:331-351 | a position drawn from the sequence is above those of all dependencies and above every one in use |
| InboxTheorems.CausalOrder | ascetic_ddd/inbox/inbox.py:204-231 | in every reachable state each dependency of a processed message is in the inbox, processed, at a strictly smaller position |
| InboxTheorems.ProcessedOnce | ascetic_ddd/inbox/inbox.py:178-351 | processing of a message is committed at most once, at a position of its own that never changes; a repeated publish never changes the message first received |
| InboxTheorems.TangledIsNeverProcessed | ascetic_ddd/inbox/inbox.py:289-301 | a message on a cycle of dependencies, behind one, or behind a missing message is processed in no run |
| InboxTheorems.StuckIsTangled | ascetic_ddd/inbox/inbox.py:289-301 | when no message is ready, exactly these are left unprocessed |
| InboxScans.LockedIsAvailable | ascetic_ddd/inbox/inbox.py:255-268 | what a worker has locked it can still fetch, whatever other workers do |
| InboxScans.ScanIsAhead | ascetic_ddd/inbox/inbox.py:220-231 | under any interleaving the offset never runs past a row that each fetch of the scan could have returned |
| InboxScans.EndedScanMissedNothing | ascetic_ddd/inbox/inbox.py:204-231 | under any interleaving a scan that ends with nothing has fetched every row that each of its fetches could have returned, and found a dependency of it unprocessed |
| InboxScans.SettlesOnTheEarliest | ascetic_ddd/inbox/inbox.py:204-231 | under any interleaving the message a scan settles on is ready, and every row received before it that each of its fetches could have returned has been fetched and found unready |
| InboxScans.RejectedIsUnready | ascetic_ddd/inbox/inbox.py:289-301 | a row that a scan passes over has an unprocessed dependency at that moment |
| InboxScans.ReleasedRowIsMissed | ascetic_ddd/inbox/inbox.py:255-268 | the condition cannot be spared: a run in which a ready row is missed because another worker held it at one fetch of the scan and then rolled back |
| Inboxes.RowAtOffset | ascetic_ddd/inbox/inbox.py:255-264 | every offset below the number of rows names a row |
| Inboxes.NextOffset | ascetic_ddd/inbox/inbox.py:221-231 | offsets follow the order of arrival, so scanning on skips no row |
| Inboxes.Inbox.Publish | ascetic_ddd/inbox/inbox.py:50-57 | inserts a new message with the next position, leaves a known key as it is, and waits while another open transaction is inserting the key |
| Inboxes.Inbox.FetchUnprocessed | ascetic_ddd/inbox/inbox.py:233-287 | returns the free row with exactly `offset` free rows before it, or nothing if there are no more than that |
| Inboxes.Inbox.AreDependenciesSatisfied | ascetic_ddd/inbox/inbox.py:289-329 | true exactly if every dependency is processed |
| Inboxes.Inbox.FetchNextProcessable | ascetic_ddd/inbox/inbox.py:204-231 | when no other worker steps in between, returns the ready message received first, and nothing exactly if none is ready |
| Inboxes.Inbox.Dispatch | ascetic_ddd/inbox/inbox.py:59-82 | processes the earliest ready message and nothing else, changes nothing when the subscriber raises, and reports none exactly if none is ready |
| Inboxes.Inbox.RunUntilIdle | ascetic_ddd/inbox/inbox.py:154-168 | a worker alone processes as many messages as it reports and leaves exactly those that can never be processed |
| Inboxes.Drain | ascetic_ddd/inbox/inbox.py:59-82 | with every dependency present and no cycle, as many successful dispatches as unprocessed messages drain the inbox |
| SagaMachine.WorkBalances | ascetic_ddd/saga/parallel_activity.py:43-96 | each step of an activity turns one effect outstanding or takes one back, and accounts for it |
| SagaMachine.WorkKeepsOutcome | ascetic_ddd/saga/parallel_activity.py:54-66 | no step, of whichever branch, changes the outcome to come |
| SagaTheorems.DoWorkIsAllOrNothing | ascetic_ddd/saga/parallel_activity.py:43-86 | under any interleaving a failed do_work leaves the outstanding effects as they were, and a successful one adds exactly those of its log |
| SagaTheorems.NothingUndoneTooEarly | ascetic_ddd/saga/fallback_activity.py:63-71 | at no moment has an effect been undone more often than done |
| SagaTheorems.SlipIsAllOrNothing | ascetic_ddd/saga/parallel_activity.py:68-76 | the loop that drives a slip and unwinds it on failure ends as its items determine, with all of its effects or none |
| SagaTheorems.UnwindingUndoesExactlyOnce | ascetic_ddd/saga/fallback_activity.py:73-84 | unwinding a stack, parallel branches interleaved, does nothing new and undoes each effect on it exactly once |
| SagaTheorems.RunThenUnwindLeavesNothing | ascetic_ddd/saga/parallel_activity.py:78-96 | a slip that succeeded and is unwound later leaves nothing outstanding |
| SagaTheorems.EveryScheduleEnds | ascetic_ddd/saga/parallel_activity.py:54-86 | no schedule is longer than a bound given by the item, and none gets stuck before do_work returns |
| SlipTraces.WorkTraceBalances | ascetic_ddd/saga/parallel_activity.py:43-66 | the effects that an item leaves outstanding are exactly those of its log, and none if it fails, whatever it tried in between |
| SlipTraces.ItemsTraceBalances | ascetic_ddd/saga/parallel_activity.py:68-76 | a slip that is driven to its end is left with all of its effects or, after a failure, with none |
| SlipTraces.UndoTraceMeans | ascetic_ddd/saga/fallback_activity.py:73-84 | compensating a log does nothing new and undoes each of its effects exactly once |
| SlipTraces.LastDoneFirstUndone | ascetic_ddd/saga/fallback_activity.py:42-84 | in the whole trace of a slip without parallel activities, nested slips, failed alternatives and unwinding included, every undo takes back the newest effect outstanding |
| RoutingSlips.DirectJournalTrace | ascetic_ddd/saga/__init__.py:30-36 | what leaf activities do and undo in a saga is what its journal says, event by event |
| RoutingSlips.RoutingSlip.ProcessNext | ascetic_ddd/saga/routing_slip.py:52-75 | takes the first item off the queue and logs it exactly if its work succeeds, with exactly the effects of the logs outstanding; raises on a completed slip |
| RoutingSlips.RoutingSlip.UndoLast | ascetic_ddd/saga/routing_slip.py:95-114 | pops the last log, does nothing new and undoes exactly its effects, in order; raises when there is none |
| RoutingSlips.ParallelDoWork | ascetic_ddd/saga/parallel_activity.py:43-66 | succeeds exactly if all branches do, and otherwise compensates all of them; the sequence of effects done and undone is that of the branches and then of their compensations |
| RoutingSlips.ExecuteBranch | ascetic_ddd/saga/parallel_activity.py:68-76 | a slip ends with all of its logs or, after the first failure, with none; what is outstanding afterwards is exactly the effects of the logs it is left with, and the sequence of effects on the way is the slip's |
| RoutingSlips.CompensateBranches | ascetic_ddd/saga/parallel_activity.py:78-86 | undoes exactly the effects of all branches, each branch last first |
| RoutingSlips.FallbackDoWork | ascetic_ddd/saga/fallback_activity.py:42-61 | the log is that of the first alternative that succeeds; those tried before leave nothing and are unwound before the next is tried |
| RoutingSlips.CompensateAlternative | ascetic_ddd/saga/fallback_activity.py:73-84 | undoes exactly the effects of the alternative that succeeded, last first |
| RoutingSlips.Unwind | ascetic_ddd/saga/parallel_activity.py:83-86 | undoes each log on the stack, last first, down to the leaves of nested slips |
| RoutingSlips.ThereAndBack | ascetic_ddd/saga/__init__.py:30-36 | a saga is its items up to the first failure, and after one the compensations of all items that had succeeded in exactly the reverse order |
| ActivityHosts.ActivityHost.ProcessForwardMessage | ascetic_ddd/saga/activity_host.py:38-59 | works on one item and sends the slip onward on success and back on failure; exactly the effects of the slip's logs are outstanding after it if they were before |
| ActivityHosts.ActivityHost.ProcessBackwardMessage | ascetic_ddd/saga/activity_host.py:61-82 | undoes one log and sends the slip further back; nothing new is done, and exactly the effects of the remaining logs stay outstanding |
| ActivityHosts.ActivityHost.AcceptMessage | ascetic_ddd/saga/activity_host.py:84-104 | accepts exactly the messages to its two addresses, and does nothing on others; what is outstanding follows the slip's logs either way |
| ActivityHosts.Deliver | ascetic_ddd/saga/activity_host.py:84-104 | a message is taken by the first host with a matching queue, as compensation if both match, and is lost if none does; what leaf activities do and undo is what the event it adds says |
| ActivityHosts.RunHosts | ascetic_ddd/saga/activity_host.py:38-104 | for every deployment the hosts end, write the journal that the routes of their messages determine, do and undo exactly what it says, and leave exactly the effects of the slip's remaining logs outstanding; on well routed slips they leave the slip as the direct loop does |
| ActivityHosts.HostsMatchExactly | ascetic_ddd/saga/activity_host.py:38-104 | the hosts perform exactly the do and undo sequence of the direct loop if and only if each message of that sequence has a non-empty address and is taken the right way by the first host with a matching queue |
| ActivityHosts.BackExactly | ascetic_ddd/saga/activity_host.py:61-82 | on the way back they compensate exactly the logs on the stack if and only if each of these is routed back |
| ActivityHosts.SeparateQueuesRouteAll | ascetic_ddd/saga/activity_host.py:84-104 | with a host for each activity, no empty address and no work address that is a compensation address, every slip is well routed |
| ActivityHosts.RunDirectly | ascetic_ddd/saga/__init__.py:30-36 | the direct loop performs that same sequence, and leaves exactly the effects of the logs it ends with |
| Multimaps.RemoveFirst | ascetic_ddd/dag_change/dag_change_manager.py:9-34 | takes away one listing of the pair if there is one |
| Multimaps.AddPair | ascetic_ddd/dag_change/dag_change_manager.py:67-74 | one listing more in both maps, which still mirror each other |
| Multimaps.RemovePair | ascetic_ddd/dag_change/dag_change_manager.py:76-85 | one listing fewer in both maps, no empty entry, still mirrored |
| Multimaps.RemoveKey | ascetic_ddd/dag_change/dag_change_manager.py:87-93 | no listing of the subject in either map, all others as they were, still mirrored |
| DagChange.DagChangeManager.Register | ascetic_ddd/dag_change/dag_change_manager.py:67-74 | the pair is listed once more, repeated edges included, and the two maps keep equal multiplicities |
| DagChange.DagChangeManager.Unregister | ascetic_ddd/dag_change/dag_change_manager.py:76-85 | takes back one registration, if there is one, from both maps |
| DagChange.DagChangeManager.UnregisterAll | ascetic_ddd/dag_change/dag_change_manager.py:87-93 | takes back all registrations with the subject from both maps |
| DagChange.CollectAffected | ascetic_ddd/dag_change/dag_change_manager.py:116-125 | the recursive search collects each observer once, only reachable ones, and everything newly collected leads to collected ones |
| DagChange.CollectedExactly | ascetic_ddd/dag_change/dag_change_manager.py:103-104 | started from nothing it collects exactly what the change reaches |
| DagChange.CountSubjects | ascetic_ddd/dag_change/dag_change_manager.py:135-138 | the in-degree counts listings, so repeated edges count repeatedly |
| DagChange.InitialQueue | ascetic_ddd/dag_change/dag_change_manager.py:131-143 | the queue starts with exactly the affected observers that wait for no affected one |
| DagChange.Take | ascetic_ddd/dag_change/dag_change_manager.py:146-151 | because the maps mirror each other, a node owes each of its observers as many decrements as its listings were counted |
| DagChange.RelaxAll | ascetic_ddd/dag_change/dag_change_manager.py:150-155 | afterwards nothing is owed and the queue holds exactly the observers at zero that are not sorted yet |
| DagChange.TopoSort | ascetic_ddd/dag_change/dag_change_manager.py:127-157 | the sorted list has each affected observer that no cycle among them holds back, once, after its affected subjects, and no other |
| DagChange.DagChangeManager.Notify | ascetic_ddd/dag_change/dag_change_manager.py:101-114 | the updates sent are those of such an order over exactly the observers the change reaches |
| DagChange.EachOnce | ascetic_ddd/dag_change/dag_change_manager.py:51-54 | on an acyclic graph every observer the change reaches is updated exactly once, and no other is |
| DagChange.CausesFirst | ascetic_ddd/dag_change/dag_change_manager.py:51-54 | no observer is updated before an affected one it depends on, directly or through others |
| BindingTheorems.BindingsRefineTheRelation | ascetic_ddd/dag_change_typed/dag_change_manager.py:76-158 | over every proper history there is an edge between two different nodes exactly if it was registered by hand since the subject was last removed, or the subject is there and its type is bound to the observer |
| BindingTheorems.EdgesFollow | ascetic_ddd/dag_change_typed/dag_change_manager.py:92-158 | an edge is listed once for each registration by hand and once if a binding made it, and bindings make it only where there was none |
| BindingTheorems.AnyOrderGivesTheSameEdges | ascetic_ddd/dag_change_typed/dag_change_manager.py:92-139 | registrations, bindings and subjects added in any other order lead to the same edges |
| BindingTheorems.OnlySelfEdgesAreExceptions | ascetic_ddd/dag_change_typed/dag_change_manager.py:134-136 | the relation holds over all proper histories for a pair of nodes exactly if they are different |
| BindingTheorems.SelfEdgeDependsOnOrder | ascetic_ddd/dag_change_typed/dag_change_manager.py:100-103 | whether a subject bound to its own type observes itself depends on which came first |
| BindingTheorems.DoubleBindingLosesItsEdges | ascetic_ddd/dag_change_typed/dag_change_manager.py:105-116 | a binding made twice and taken back once is still there without its edges |
| DagChangeTyped.TypedDagChangeManager.Register | ascetic_ddd/dag_change_typed/dag_change_manager.py:76-83 | one more edge in both maps, recorded as one more operation of the history |
| DagChangeTyped.TypedDagChangeManager.Unregister | ascetic_ddd/dag_change_typed/dag_change_manager.py:85-88 | one edge fewer, if there is one, recorded as one more operation of the history |
| DagChangeTyped.TypedDagChangeManager.RegisterByType | ascetic_ddd/dag_change_typed/dag_change_manager.py:92-103 | records the binding and creates and marks exactly the edges to known subjects that were missing; the manager stays in the state its history leads to |
| DagChangeTyped.TypedDagChangeManager.ConnectAll | ascetic_ddd/dag_change_typed/dag_change_manager.py:100-103 | the loop over known subjects creates and marks exactly the edges that were missing |
| DagChangeTyped.TypedDagChangeManager.UnregisterByType | ascetic_ddd/dag_change_typed/dag_change_manager.py:105-116 | takes back the binding and exactly the edges it had created for present subjects; the manager stays in the state its history leads to |
| DagChangeTyped.TypedDagChangeManager.DisconnectAll | ascetic_ddd/dag_change_typed/dag_change_manager.py:112-116 | the loop over known subjects takes back exactly the edges that bindings had created |
| DagChangeTyped.TypedDagChangeManager.AddSubject | ascetic_ddd/dag_change_typed/dag_change_manager.py:120-139 | the loop over bindings creates exactly the missing edges from the subject, none to itself |
| DagChangeTyped.TypedDagChangeManager.RemoveSubject | ascetic_ddd/dag_change_typed/dag_change_manager.py:141-158 | takes away every edge from the subject, by hand or by binding, and one listing of the subject |
| DagChangeTyped.TypedDagChangeManager.HasEdge | ascetic_ddd/dag_change_typed/dag_change_manager.py:227-231 | found exactly if the manager has the edge; after a proper history, for two different nodes, exactly if the pair was registered by hand or the subject is there and its type is bound to the observer |

## Left out

- Toposort.StableToposort: says what the result is only for distinct nodes; with a node listed twice it only says that the loop ends.
- Kahn.HeapPop: stands for `heapq` on tuples as an abstract extract-min; equal keys are told apart by input index, as the tuples are.
- QueryParser.PrintThenParse: covers the trees the operators' documentation allows (non-empty operands, two or more for Or and And, no raw dict as an operand of $eq); an And that holds an And or a composite does not survive, and AndSurvivesExactly says when an And of single operators does.
- QueryMergeLaws.AddAssociates: where merging fails, which of the two errors is raised (a conflict or an unsupported pair) may depend on the grouping, as it may on the order in AddCommutes; for two operands QueryClashes.FirstClashDecides says which.
- QueryMeet.EqualVerdicts: which of two unequal fields of a composite is evaluated first decides whether a later one raises, so equal queries may differ in raising.
- PgCorrectness.CompilationPreservesMeaning: leaves out null and list operands, a stored JSON null where `$is_null` asks, fields that are missing where an order or $all needs them, values whose type differs from the operand's, and a `$rel` without criteria, on a field that is no reference, beside other operators of its field, or directly under its $any or $all; beside it, or in PgRelations, is a lemma for each of these on which the two sides part.
- PgAlignment.CompileQuery: `_to_dict` of an equality that holds an operator counts as a failure to encode.
- Relations.FindMeans: key columns are jsonb, as the tables declare them; that a foreign object's exported state is its row's `value` is taken from the statement that inserts both.
- How the driver encodes a raw operand is a parameter of the model; `jsonb_array_length` is compared with the raw number itself.
- Documents and literals: numbers are reals, strings are sequences of characters compared by code, and dataclass operands and the JSON encoder are not modelled.
- A nested dict that the user passes as an equality value is a value; that `_eq_values` may alias and extend it in place is not captured.
- `EvaluateVisitor`, the visitor form of the asynchronous evaluator, and object resolvers that are not backed by the tables that the statement reads.
- `QueryToPlainValueVisitor` and the hash functions of operators.
- OutboxProtocol.FetchedIsNextUp: the uri filter and `hashtext(uri) % num_workers` are one fixed predicate for each group; `set_position` and a changing number of workers are not modelled.
- OutboxTheorems.ReplayFromTheSameOffset: says that one batch is a prefix of the other, not which; with a snapshot taken earlier the later batch can be the shorter one.
- Outboxes.Outbox.Dispatch: performs its steps without interruption, so a round that waits for the lock stays waiting; the interleavings are those of OutboxProtocol. `_iterate`, which acknowledges each message by itself, `run`, and `get_position` are not modelled.
- A dispatcher that waits for the lock gets its transaction id when the lock is granted, not when it begins to wait; the id only ever makes other snapshots read less.
- InboxProtocol.StepKeepsInv: the partition filter is a fixed predicate for each worker; the unique index on event_id and iterating with `async for` are not modelled.
- Inboxes.Inbox.FetchNextProcessable: always starts at offset 0, the default no caller overrides, and is not interrupted; InboxScans has the scan among other workers.
- Inboxes.Inbox.RunUntilIdle: one worker without partition filter and no publisher meanwhile; polling intervals and stop events are left out.
- SagaTheorems.DoWorkIsAllOrNothing: leaf compensations succeed, return True and cancel their effect; compensations that raise or add work, which the nested unwinding loops ignore, are left out, and a leaf that fails has no effect.
- RoutingSlips.ParallelDoWork: nested slips are values, made into fresh slip objects when the activity runs and again when it is compensated; that the caller may hold references to them is not captured. Its branches run one after another, and are compensated one after another in the same order; SagaMachine has the interleavings.
- ActivityHosts.ActivityHost.ProcessBackwardMessage: the branch that resumes forward after a False compensation is not exercised; transport and serialisation of messages are left out.
- DagChange.DagChangeManager.Notify: observers do not register or unregister during an update; what `update` does is outside the model.
- BindingTheorems.BindingsRefineTheRelation: for histories that add each subject once at a time, make each binding once at a time and unregister nothing by hand; beside it are lemmas on self-edges and on double bindings.
- `notify` of the typed manager, which is the same code as that of the untyped one.
- Nodes, subjects and observers are told apart by equality, where the managers mix equality of keys with identity of list entries.
- Database drivers, sessions, asyncio scheduling, DDL, and the remaining packages of the repository.
