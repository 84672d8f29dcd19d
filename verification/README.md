# A verified model of the index

This project models the part of the repository that has to be right for search
results to mean anything: the incremental index. A pass scans a vault of markdown
files, stores the notes that changed, deletes those that are gone, and computes
vectors for the chunks that have none. Everything the pass relies on is modelled
with it: the chunker, the frontmatter parser, the naming of vector spaces, the
retry loop, batching, the assembled SQL statement. The prompt budget and the
background indexer are the two users of the index that are modelled.

The index is a cache that must agree with a rebuild from scratch after any history
of edits, failures, cancellations and model switches, while `ingest` and `server`
may run passes at the same time. That is proved in four layers.

1. `Database` has the tables as a value (notes by path, chunks by id, the registry
   of spaces, one table of vectors a space) and each transaction as one atomic
   function on them. `Sound` is what every transaction keeps.
2. `Passes` is a pass as a state machine, one transaction or provider call a step,
   each step able to fail or be cancelled, and any number of passes interleaved.
   `Losses`, `Rebuild`, `Walk` and `Resume` prove what whole runs amount to,
   `Progress` that a pass gets to its end, `Shared` what passes over one vault do to
   each other, `Once` that passes which take turns embed nothing twice, and `Calls`
   how many texts each provider call has.
3. `Storage` and `Knowledge` are the Go methods themselves, as classes whose fields
   are updated statement by statement, with a failure possible at each statement.
   Each method is proved to do what a step of the machine does, with exactly the
   event that the environment decides (`Knowledge.Decides`), so
   `Knowledge.KnowledgeBase.Index` is a run of the machine and inherits its theorems.
4. `Chunker`, `Frontmatter`, `Vault`, `Spaces`, `Embedding`, `OpenAI`, `Retry`,
   `Insert`, `Prompt` and `Reindex` are the supporting algorithms: the loops as
   methods, proved against functions, and the properties of those functions as
   lemmas. `ParagraphText` is the round trip of the chunker,
   `LineEnds` says that a note indexes the same with either kind of line end, `Answers` the way from
   the index into a prompt. `Text`, `Ordered`, `Arithmetic` and `Outcome` are shared
   vocabulary.

## Conventions

- Text is a sequence of runes. The hash of a file is a constructor applied to its
  content (`Vault.Digest`), so it is injective.
- What a parser reads, how a text is cut and what a model embeds are the fields of
  `Database.Setup`. The theorems about passes hold for any such functions;
  `Knowledge.KnowledgeBase.Index` is stated for the real parser and chunker
  (`Real`). An embedding is a function of space, kind and text.
- The chunk size is part of `Setup`, so it is fixed for the life of a database. The
  code does not cut an unchanged note again when the size changes
  (`internal/storage/upsert.go:67-72`).
- Row ids come from the environment. A step of the machine takes ids that were never
  issued; the class `Storage.Store` counts them up and, like an identity column,
  does not take them back on a rollback.
- `Knowledge.Weather`, `Retry.World` and `Embedding.Remote` are what the outside
  world does: which statement fails, when the context is cancelled, what a provider
  answers, how long it slept when a wait was cut short, the random draws. They are
  arbitrary, so every theorem is about all of them. A provider lives longer than a
  pass: each of its calls has a context of its own, and a pass starts at the call
  where the provider is.
- A cancelled context and an expired deadline are failures of the step they hit.

## Where the code and its comments differ

The model follows the code.

- The comment that a chunk whose text changed keeps its id
  (`internal/storage/embeddings.go:119-120`) is not what
  `internal/storage/upsert.go:79-92` does: chunks are deleted and inserted with new
  ids. `Passes.Extends` states that ids are never reused and text never changes in
  place, and the freshness theorem rests on it.
- The comment that retries wait for the limiter too (`embed/factory.go:137-139`) is
  not what the order of the wrappers does: one token is taken for a logical call
  (`Embedding.Limited.Embed`), and a call makes more attempts than that exactly when
  its first attempt is retried (`Embedding.AttemptsBeyondToken`).
- The documentation of an answer says its hits and sources were shown to the model
  (`knowledge/knowledge.go:385-391`). `Prompt.DroppedHitIsListed` shows they may be
  hits that the budget dropped. It is true of the hits exactly when all together are
  within the budget (`Prompt.DroppedIffOverBudget`), and of the sources exactly when
  every hit has one from its note that is (`Prompt.SourcesShownExactly`);
  `Answers.NoHitDropped` is a case in which both are.
- The comment that sorting a response by index leaves no question
  (`embed/openai.go:165-167`) is right exactly when the indices are 0..n-1, each once
  (`OpenAI.PlacedExactly`), which the code does not check.
- A retry loop of n attempts can wait longer than n - 1 times the ceiling, because
  the context is looked at after the wait: `Retry.BoundExceeded` says in which worlds,
  with a wait that is cut short counted as long as it was slept, and
  `Retry.InterruptedWaitsLonger` that there are some for every policy.

## Model

| member | source | states |
|---|---|---|
| Knowledge.KnowledgeBase.Index | knowledge/knowledge.go:227-292 | past the scan, the call is the run of the pass machine that the environment decides, to its end; it returns the cancellation exactly when the context is cancelled before some note; of the notes before that, it stores every one whose own transaction does not fail, and its counters are exactly the numbers of those that failed, that had new content and that had the content already stored, and of the skipped files; no provider call is empty or over the provider's limit; when notes failed, none is deleted, and unless something stopped the call later nothing is pending; nil only when every scanned note is stored, nothing that left the vault is kept and nothing is pending, and then the deleted count is the number of notes that left the vault; nil whenever nothing goes wrong from its start on; the database stays sound however it ends; the two early errors change nothing; the provider is asked exactly what the run sends |
| Knowledge.KnowledgeBase.IndexScan | knowledge/knowledge.go:243-291 | from the scan on, the call is one run of the machine whose every event is the one the environment decides, and its verdict is where that run ends |
| Knowledge.StopsExactly | knowledge/knowledge.go:258-290 | each verdict ends a pass exactly in its phase and for its cause: a cancelled context, a failing prune, listing or save, a refused insert, a provider that does not answer, or nothing left to embed |
| Knowledge.CalmSucceeds | knowledge/knowledge.go:208-215 | a pass that is over and in which nothing went wrong returned nil, whatever earlier passes over the same provider met |
| Knowledge.RunStores | knowledge/knowledge.go:218-221 | a note that cannot be stored does not stop the pass: note i is stored in step i unless a statement of its transaction fails; written, unchanged and failed count the notes that had new content, that were stored already and that failed |
| Knowledge.FinishedSettled | knowledge/knowledge.go:218-221 | a pass that got through its last listing leaves nothing pending, also when some notes failed |
| Knowledge.AtIsRun | knowledge/knowledge.go:227-339 | the states the methods go through are those of the machine |
| Knowledge.KnowledgeBase.StoreNotes | knowledge/knowledge.go:257-277 | the loop over the notes stops exactly when the context is cancelled before one of them; up to there it stores every one whose transaction does not fail, with exact counters, and collects the paths to keep |
| Knowledge.KnowledgeBase.StoreTurn | knowledge/knowledge.go:263-276 | one turn of that loop: note i is stored by one step, and its error, if any, is kept and counted |
| Knowledge.KnowledgeBase.StoreNext | knowledge/knowledge.go:263-276 | storing one note is one storing step, and it fails exactly when one of its statements does |
| Knowledge.KnowledgeBase.PruneNext | knowledge/knowledge.go:281-285 | pruning is one step with one event; it fails exactly when its statement does and there is something to keep, and it unstores no kept note |
| Knowledge.KnowledgeBase.PruneUnlessFailed | knowledge/knowledge.go:279-287 | without failed notes it prunes, in one step; with them it does not; either way what the notes came to stays as it was counted |
| Knowledge.KnowledgeBase.EmbedPending | knowledge/knowledge.go:302-339 | the run goes on from its first listing by the steps the environment decides until no chunk is pending or one of them fails; it ends, reports exactly the number of chunks saved, moves no other field of the pass, and asked the provider exactly what it sent; each call has max(1, MaxBatch) texts, or what is left of its 128 or of everything pending |
| Knowledge.KnowledgeBase.Round | knowledge/knowledge.go:305-338 | a round ends with a failed listing exactly when the listing fails; otherwise it ends the loop or saves at least one chunk, by the steps the environment decides |
| Knowledge.KnowledgeBase.EmbedRound | knowledge/knowledge.go:314-337 | a round that is not stopped saves every chunk it claimed; one that is stopped has the verdict that the environment decides in its last step |
| Knowledge.KnowledgeBase.EmbedNext | knowledge/knowledge.go:315-336 | one part is one provider call and, if it answers, one save; it stops exactly when the provider does not answer, or the save fails or is refused |
| Knowledge.KnowledgeBase.ListNext | knowledge/knowledge.go:306-312 | one listing step claims the first 128 pending chunks, and an empty claim is the end of the walk |
| Knowledge.KnowledgeBase.EmbedPart | knowledge/knowledge.go:322-325 | a part is exactly one logical provider call; it succeeds exactly when the retry loop ends with an answer, and then gives the embedding of each text in order |
| Knowledge.IndexedInLine | knowledge/knowledge.go:206-226 | a run over real files keeps the database sound, and one that succeeds leaves it in line with the vault |
| Knowledge.PassCost | knowledge/knowledge.go:302-339 | with n chunks pending when a whole pass first asked and m = max(1, MaxBatch), each of its calls has m texts, or what is left of its 128 or of all n, and a pass that got through its last listing made exactly (n / 128) * ceil(128 / m) + ceil((n % 128) / m) of them |
| Knowledge.EffectIsStep | internal/storage/upsert.go:39-98 | what the storing transaction did to the tables is what the storing step does, in each of its outcomes |
| Knowledge.ScanIsRead | internal/vault/vault.go:45-76 | a scan of distinct files satisfies everything the pass assumes of a scan |
| Knowledge.KnowledgeBase.constructor | knowledge/knowledge.go:108-110 | a chunk size that is not positive means 800 |
| Passes.NoStaleVector | internal/storage/upsert.go:79-92 | under any interleaving of any passes with any failures, every stored vector belongs to a live chunk, has the dimension of its space and is the embedding of the text the chunk has now |
| Passes.ExecuteOk | knowledge/knowledge.go:227-339 | every reachable state is sound, and what each running pass holds is still true enough to save |
| Passes.StepOk | knowledge/knowledge.go:243-339 | every step of every pass keeps the database sound, never reuses an id or rewrites a chunk in place, and keeps the claims of the pass honest |
| Passes.ActOk | internal/storage/spaces.go:39-108 | the same for every action of the system, registering a space among them |
| Passes.SaveExtends | internal/storage/embeddings.go:77-94 | saving vectors computed from an old pending list cannot make a stale one: ids that are gone fail the whole insert |
| Passes.PendingLive | internal/storage/embeddings.go:41-47 | the pending list is in id order and holds exactly the live chunks without a vector |
| Rebuild.ReachableEqualsRebuild | knowledge/knowledge.go:208-226 | from any database that any history can have left, a pass that returns nil on a scan that listed something leaves every chunk embedded, and the view that a rebuild from an empty database gives, plus the skipped notes as they were, embedded; such a rebuild exists, and every one agrees |
| Rebuild.IncrementalEqualsRebuild | knowledge/knowledge.go:227-292 | the same from any sound database |
| Rebuild.RebuildSucceeds | knowledge/knowledge.go:227-292 | a vault that is indexed in full can be indexed from scratch: some pass over it on an empty database returns nil |
| Rebuild.InLineAgrees | knowledge/knowledge.go:206-226 | having every note stored, only kept paths, nothing pending and the skipped rows unchanged is agreeing with every rebuild |
| Progress.PassSucceeds | knowledge/knowledge.go:227-292 | from any sound database that has the space, over any scan whose texts it can hold, a pass has a run without a failing step, and that run returns nil |
| Progress.Finishes | knowledge/knowledge.go:243-339 | the same from any point of a pass that is alone: notes left, then chunks left, then the phase get less |
| Shared.SharedVaultAgrees | knowledge/knowledge.go:208-226 | with any number of passes over one vault at once, once one of them has returned nil in a space, the index agrees there with the rebuilds, with nothing pending, and no later step of any of them undoes it |
| Shared.ExecuteOneScan | knowledge/knowledge.go:227-339 | what each of those passes has established is not undone by the others |
| Rebuild.SuccessInLine | knowledge/knowledge.go:279-291 | success means every scanned note is stored, no other path is left except kept ones, and nothing is pending |
| Rebuild.RepeatDoesNothing | knowledge/knowledge.go:208-215 | after a successful pass, any further pass over the same scan, finished or not, changes no row and no id, writes, deletes and embeds nothing and makes no provider call |
| Rebuild.SkippedNoteKept | internal/vault/vault.go:59-66 | a note whose file could not be parsed keeps its row, its chunks with their ids and every vector, through a whole pass however it ends |
| Rebuild.DeletesExactly | knowledge/knowledge.go:279-285 | the deleted count of a pass that has pruned is the number of notes that left the vault; any other pass, one that failed to store some note among them, deletes none |
| Rebuild.RunOk | knowledge/knowledge.go:227-339 | soundness over a whole solo run |
| Losses.LostNoteWasPruned | knowledge/knowledge.go:279-285 | over any run of any passes, a note that is gone was deleted by the prune of a pass that had handled every scanned note, none of which failed, and whose scan listed something and did not list it as a note or as skipped |
| Losses.LostChunkWasReplaced | internal/storage/upsert.go:79-92 | over any run, a chunk that is gone went with a safely pruned note or when its note got new content |
| Losses.LostVectorLostChunk | internal/storage/spaces.go:82-87 | over any run, a vector that is gone went with its chunk, for good |
| Losses.GainedVectorWasSaved | internal/storage/embeddings.go:102-123 | over any run, a table gains vectors only in saving steps of passes in its space |
| Losses.PruneTakesAll | internal/storage/embeddings.go:147-171 | the chunks of a pruned note and their vectors in every space go in the same step |
| Losses.StepLosesChunk | internal/storage/upsert.go:79-92 | a chunk goes only when its note is pruned or its content was replaced |
| Losses.StepLosesVector | internal/storage/spaces.go:82-87 | a vector goes only with its chunk |
| Losses.StepGainsVector | internal/storage/embeddings.go:102-123 | only a saving step of a pass in the same space adds vectors to a table |
| Losses.RollbackIsFree | internal/storage/embeddings.go:29-35 | once nothing is pending in a space, no run of passes in any spaces that rewrites no note makes anything pending there |
| Losses.CountsConserved | knowledge/knowledge.go:257-291 | a pass past its storing loop has written + unchanged + failed equal to the scanned notes |
| Walk.EmbedPendingRefinesWalk | knowledge/knowledge.go:294-339 | wherever embedPending stops, exactly the first `embedded` initially pending chunks were embedded and the rest is pending; it finishes only when none is; the texts sent are those of the same chunks in order and at most one batch more |
| Resume.ResumedPasses | knowledge/knowledge.go:212-216 | over a vault whose notes are stored, any number of whole passes, each cut short or failing anywhere, embed consecutive pieces of one walk and change nothing else; each sends at most one batch that it does not save |
| Once.SavedOnce | knowledge/knowledge.go:296-301 | over any run of passes on changing vaults and spaces, failed and killed ones among them, in which no two are under way in one space at once, a chunk is saved at most once for a space |
| Once.SavedIsNew | knowledge/knowledge.go:315-336 | in such a run no saving step meets a vector that is already there |
| Once.OverlapSavesTwice | internal/storage/embeddings.go:119-123 | without that condition it fails: from any database with a chunk to embed, two passes in one space can both save it |
| Resume.PassContinues | knowledge/knowledge.go:296-301 | the same for one such pass: up to its first listing it changes nothing, and from there on it is the walk |
| Walk.ExactCost | knowledge/knowledge.go:302-339 | the exact number of provider calls of a finished walk, each of 1 to size texts |
| Calls.RunRounds | knowledge/knowledge.go:303-315 | wherever a walk stops, each call it made has as many texts as fit one call, or what is left of its round of 128, or of everything |
| Walk.CostClosed | knowledge/knowledge.go:302-339 | rounds of 128, each split into parts, add up to that closed form |
| Walk.PassReachesWalk | knowledge/knowledge.go:279-287 | a pass that asked for pending chunks had embedded and sent nothing before |
| Walk.ClaimsNext | internal/storage/embeddings.go:41-47 | asking again claims the next chunks of the same walk |
| Database.RewriteOk | internal/storage/upsert.go:39-98 | replacing the chunks of a note keeps the database sound |
| Database.PruneOk | internal/storage/embeddings.go:158-171 | pruning keeps it sound |
| Database.PruneExactly | internal/storage/embeddings.go:158-171 | exactly the notes at the kept paths are left, as they were, and the count is the old number of notes minus the new |
| Database.SaveVectorsOk | internal/storage/embeddings.go:77-94 | saving truthful vectors for live chunks keeps it sound |
| Database.SavedRows | internal/storage/embeddings.go:77-94 | saving a batch stores each vector under its chunk and moves no other row |
| Database.RegisterOk | internal/storage/spaces.go:66-90 | registering a space keeps it sound and gives the space a table |
| Database.RegisteredAs | internal/storage/spaces.go:66-90 | a new space gets an empty table of the name that was asked for, a known one keeps its own, and no other space or row changes |
| Database.RegisterIdempotent | internal/storage/spaces.go:66-79 | registering twice is registering once, and no two registered spaces share a table |
| Database.NewSpacePending | internal/storage/embeddings.go:29-47 | a newly registered space has every chunk pending |
| Database.SettledView | internal/storage/upsert.go:84-92 | when nothing is pending, a stored note looks as if indexed from scratch |
| Database.Coverage | internal/storage/embeddings.go:134-145 | embedded + pending = chunks, so embedded equals chunks exactly when nothing is pending |
| Storage.Store.SaveNoteWithChunks | internal/storage/upsert.go:20-99 | the statements of the transaction add up to one rewrite, to nothing when the hash is the same, or to nothing but burned ids when a statement or the chunker fails; it fails exactly when one of them does |
| Storage.Store.ReplaceNote | internal/storage/upsert.go:74-98 | the statements after an upsert that wrote, with the rollback |
| Storage.Store.ReplaceChunks | internal/storage/upsert.go:79-92 | the old chunks go with their vectors in every space, the new ones come with fresh increasing ids |
| Storage.Store.DeleteMissingNotes | internal/storage/embeddings.go:158-171 | the new state and the number of deleted notes; an empty list deletes nothing and does not touch the database |
| Storage.Store.PendingChunks | internal/storage/embeddings.go:36-67 | the first `limit` pending chunks in id order, at least one when there is one |
| Storage.Store.SaveEmbeddings | internal/storage/embeddings.go:77-94 | the statement is built, read and executed on the table that was read out of it; the batch is saved whole or not at all, and is refused exactly on a wrong dimension, a repeated id, an id that is not live or a failing statement |
| Storage.Store.CountStats | internal/storage/embeddings.go:134-145 | the embedded count falls short of the chunk count by exactly what is pending |
| Storage.Store.EnsureSpace | internal/storage/spaces.go:39-108 | the space is registered with its table, or nothing changes; it is refused exactly when it is invalid, its slug is another space's table or a statement fails |
| Chunker.Cut | internal/chunk/cut.go:17-80 | the packing loop computes the chunks the properties below are about; an error exactly for a size that is not positive |
| Chunker.ExtractParagraphs | internal/chunk/cut.go:82-113 | the line loop computes the paragraphs |
| Chunker.CutByRunes | internal/chunk/cut.go:115-128 | the re-slicing loop computes the forced split |
| Chunker.PackingOptimal | internal/chunk/cut.go:36-79 | the chunks are those of one order-preserving grouping into joined runs that fit, with each oversize paragraph alone and cut, in which no paragraph would have fitted behind the chunk before it, and no such grouping has fewer |
| Chunker.GroupPrice | internal/chunk/cut.go:43-53 | a group that fits costs one chunk, an oversize paragraph of n runes costs ceil(n / size) |
| Chunker.SplitFull | internal/chunk/cut.go:115-128 | every piece of an oversize paragraph but the last is full |
| Chunker.PackMonotone | internal/chunk/cut.go:60-72 | a fuller open chunk never helps and costs at most one chunk more |
| Chunker.ChunkSizes | internal/chunk/cut.go:40-77 | every chunk has between 1 and size runes |
| Chunker.ContentConserved | internal/chunk/cut.go:17-128 | the runes of the chunks that are not white space are those of the text, in order |
| ParagraphText.ParagraphRoundTrip | internal/chunk/cut.go:82-113 | paragraphs joined by blank lines are read back as they were |
| ParagraphText.ParagraphsArePrintable | internal/chunk/cut.go:89-112 | what is read out of a text without carriage returns is such a list |
| ParagraphText.ChunkingFixpoint | internal/chunk/cut.go:40-77 | cutting the joined chunks gives the same chunks, when no paragraph is oversize |
| Text.LineRead | internal/chunk/cut.go:83-90 | a line ends at a newline, and one carriage return right before it is no part of the line |
| Text.LinesOfJoin | internal/chunk/cut.go:83-90 | lines joined by either kind of line end are read back as they were |
| Text.SpacesExactly | internal/chunk/cut.go:22-25 | white space is tab to carriage return, the space, and the other runes of unicode.IsSpace, no more |
| Text.LowerExactly | internal/vault/vault.go:45 | the runes whose lower case is a given ASCII letter |
| Text.DecimalIs | internal/storage/embeddings.go:117 | a numeral ends in the digit of n % 10, behind the numeral of n / 10 |
| LineEnds.ChunksEitherWay | internal/chunk/cut.go:22-113 | a text has the same lines, paragraphs and chunks with either kind of line end |
| LineEnds.NoteEitherWay | internal/vault/parser.go:21-94 | a file with an opening fence parses to the same note or error with either kind of line end; any file gives the same title and the same chunks |
| Frontmatter.YamlParser | internal/vault/parser.go:21-94 | the scan loop with its three flags computes the parse the next two rows are about |
| Frontmatter.Classification | internal/vault/parser.go:45-90 | a file is rejected exactly when its first line is a fence and no later one is; without an opening fence the whole trimmed text is the body |
| Frontmatter.TitleBetweenFences | internal/vault/parser.go:62-80 | between the first line and the next fence, the title is that of the last line whose key trims and lowers to `title`, trimmed and without the quotes around it, and empty when there is none; the body is what follows |
| Frontmatter.TitleUnique | internal/vault/parser.go:67-75 | a line gives at most one title |
| Frontmatter.MarkIgnored | internal/vault/parser.go:22-23 | one byte order mark at the start changes nothing |
| Frontmatter.FrontmatterRoundTrip | internal/vault/parser.go:21-94 | a title printed among any other lines of frontmatter, and a body, parse back to both, with fences in the body too |
| Vault.Scan | internal/vault/vault.go:35-84 | the scan is stopped exactly by a failing entry; otherwise it has the notes and the skipped files in walk order |
| Vault.ScanWellFormed | internal/vault/vault.go:45-76 | no path twice, none both parsed and skipped, every note the parse of what it hashes |
| Vault.MarkdownFiles | internal/vault/vault.go:45 | the files that are read are those whose path ends in .md, in any case |
| Vault.NotesAre | internal/vault/vault.go:57-76 | the notes are exactly the parses of the files that parse, each with its path and the hash of its content |
| Vault.ScanInOrder | internal/vault/vault.go:57-76 | notes and skipped files come in the order of the walk |
| Vault.ScanComplete | internal/vault/vault.go:45-76 | the paths accounted for are exactly those of the files that end in .md |
| Spaces.NameInjective | embed/embed.go:59-61 | the one-line identity determines a space whose provider has no slash, whatever the model contains |
| Spaces.NamesCoincide | embed/embed.go:59-61 | two identities are the same exactly when the dimensions are and the provider and model run together to the same text |
| Spaces.NameLayout | embed/embed.go:59-61 | the identity is provider, slash, model, at sign, and the dimension in decimal behind the last at sign |
| Spaces.ValidExactly | embed/embed.go:69-79 | a space is valid exactly when neither name is blank and the dimension is 1 to 16000 |
| Spaces.Sanitize | embed/embed.go:114-129 | the loop with its underscore flag computes the sanitised name |
| Spaces.SanitizedShape | embed/embed.go:114-129 | only [a-z0-9_], no doubled underscore, none at the edges |
| Spaces.SanitizedWords | embed/embed.go:114-129 | a sanitised name is the lower-cased runs of [a-z0-9], joined by single underscores |
| Spaces.SanitizeIdempotent | embed/embed.go:114-129 | sanitising changes nothing exactly on names of that shape, hence it is idempotent |
| Spaces.SlugShape | embed/embed.go:81-112 | every slug starts with emb_, has 13 to 54 runes of [a-z0-9_] and ends in the digest of the exact identity |
| Spaces.SlugReadable | embed/embed.go:95-112 | before its digest a slug is emb_, the words of the provider, of the model and the dimension, cut off after 45 runes |
| Spaces.SlugsDiffer | embed/embed.go:95-112 | identities with different digests have different slugs |
| Embedding.Provider.Embed | embed/middleware.go:30-41 | one logical call is one retry loop, and its answer that of the last attempt |
| Embedding.CallAnswer | embed/middleware.go:30-41 | a call makes its k-th attempt exactly when every earlier one was refused with a mark, waited out and not cancelled; it succeeds exactly when its last attempt does, with that answer |
| Embedding.AttemptsBound | embed/middleware.go:30-41 | any sequence of calls makes at most max(1, MaxAttempts) raw attempts each |
| Embedding.Limited.Embed | embed/middleware.go:67-75 | one token is taken for each logical call, none for an empty input or for the attempts inside, and without a token the provider is not asked |
| Embedding.AttemptsBeyondToken | embed/factory.go:137-140 | a call makes more attempts than its token exactly when its first attempt is retried |
| Embedding.Batched | embed/middleware.go:80-110 | the loop over start makes the calls and has the outcome of the pieces, one after the other until one fails; no call is empty or over the provider's MaxBatch, and every call before the last is full |
| Embedding.PiecesEnd | embed/middleware.go:98-108 | it succeeds when every call returned a vector for each of its texts, and otherwise ends with the first that did not, and with that call's error |
| Embedding.BatchedIsMap | embed/middleware.go:80-110 | for any MaxBatch and any pointwise provider, success is the map of the embedding over the texts in order, and the calls concatenate to the texts |
| Embedding.SmallBatchIsOneCall | embed/middleware.go:91-108 | a batch that fits is one call |
| OpenAI.ReadResponse | embed/openai.go:160-181 | accepted exactly with the right count and dimensions; otherwise the error says which count or dimension was wrong |
| OpenAI.ReorderedRight | embed/openai.go:165-181 | if the indices are 0..n-1 in any order, any sort by index puts the vector of input i at position i |
| OpenAI.PlacedExactly | embed/openai.go:165-181 | every position gets the item of its own index exactly when the indices are 0..n-1, each once, whatever the sort does with equal ones |
| OpenAI.RepeatedIndexEitherWay | embed/openai.go:165-170 | with one index twice, either order of the two vectors is a sorted response |
| Insert.BuildEmbeddingInsert | internal/storage/embeddings.go:102-124 | a wrong dimension gives an error and no statement; otherwise the statement of the batch and its arguments |
| Insert.InsertMeansBatch | internal/storage/embeddings.go:96-124 | a reader of such statements, given only text and arguments, gets this table, the batch in order with each id under chunk_id and each vector under embedding, and that a vector already there is overwritten |
| Insert.StatementReads | internal/storage/embeddings.go:107-121 | the text for n rows reads as table, columns, n rows of consecutive placeholders and the conflict clause |
| Insert.ArgumentsUsedOnce | internal/storage/embeddings.go:108-118 | each argument is named by exactly one placeholder of the statement as it is read |
| Retry.Do | backoff/backoff.go:69-128 | the loop computes the trace the next rows are about: attempts, verdict, and each wait as long as it took, so that one the context cuts short is less than its delay |
| Retry.RetryTrace | backoff/backoff.go:66-101 | attempt k is made exactly when no attempt up to it is cancelled, every earlier one was refused with a mark and waited out, and attempts are left; nil exactly when the last succeeded, otherwise its error is kept; the context ends the loop exactly in the worlds where it comes before an attempt that is due |
| Retry.DelayExactly | backoff/backoff.go:107-115 | a hint is waited for, up to the ceiling; without one the wait is drawn from the window of the attempt; unset ceilings are a minute |
| Retry.WindowDoubles | backoff/backoff.go:107-115 | the window is the base (500 ms when unset) for the first attempt, and doubles up to the ceiling |
| Retry.DrawsShare | backoff/backoff.go:103-115 | every whole number below the window is drawn, each by an equal share of the draws, and no other |
| Retry.CutShortWithin | backoff/backoff.go:117-128 | a wait that the context cuts short takes what was slept of it, which is less than all |
| Retry.TotalWait | backoff/backoff.go:103-115 | the waits add up to what the policy and the world make of them, full ones in full and one that was cut short as long as it was slept; k of them take at most k * Max, and at most Base * (2^k - 1) without hints |
| Retry.BoundExceeded | backoff/backoff.go:73-101 | n attempts wait longer than (n - 1) * Max, or without hints than Base * (2^(n-1) - 1), exactly in the worlds where the context ends the loop after some attempt k and the first k waits, the last of them as long as it was slept, exceed the bound |
| Retry.InterruptedWaitsLonger | backoff/backoff.go:73-101 | such worlds exist for every policy and every n below its attempts: one waits n * Max |
| Prompt.BuildUserPrompt | rag/prompt.go:53-86 | the loop prints the prompt the next rows are about |
| Prompt.PromptLaidOut | rag/prompt.go:58-85 | the prompt is the introduction, then number from 1, title if any, reference and trimmed text of each shown passage in order, and the question; without passages it says so |
| Prompt.ShownWithinBudget | rag/prompt.go:61-78 | when more than one passage is shown, their trimmed texts together are at most the budget long (12000 when it is not positive), and with the next one they would be longer |
| Prompt.ShownLongest | rag/prompt.go:61-78 | they are the longest prefix within the budget, and always the first passage |
| Prompt.DroppedIffOverBudget | rag/prompt.go:66-68 | no hit is dropped exactly when all of them together are within the budget |
| Answers.NoHitDropped | knowledge/knowledge.go:410-432 | for hits from a sound index, when topK * chunkSize is at most 12000 no hit is dropped, so the sources are the notes shown |
| Answers.StoredChunkSize | internal/storage/upsert.go:74-92 | every stored chunk has between 1 and chunkSize runes |
| Prompt.DroppedHitIsListed | knowledge/knowledge.go:422-432 | two hits over the budget: the second is not shown, and is listed |
| Prompt.SourcesShownExactly | rag/prompt.go:61-103 | the listed sources are the notes shown if and only if for every hit some hit of its note is affordable with all those before it |
| Prompt.Sources | rag/prompt.go:92-103 | the loop with its seen set computes the list the next two rows are about |
| Prompt.SourcesExact | rag/prompt.go:88-103 | no note twice, exactly those of the passages, in first-seen order |
| Prompt.SourcesOfPrefix | rag/prompt.go:92-103 | the sources of a prefix are a prefix of the sources |
| Reindex.SingleFlight | internal/httpapi/reindex.go:32-100 | over every interleaving at most one pass is in flight, the state is running exactly when one is, every accepted start calls Index once, and otherwise the status is what the last pass returned |
| Reindex.StatusTells | internal/httpapi/reindex.go:72-93 | over every interleaving a caller sees running exactly while a pass is in flight, failed exactly when the last pass returned an error, done exactly when it returned none, idle exactly before the first start, and the last result and error |
| Reindex.Indexer.Start | internal/httpapi/reindex.go:54-66 | accepted exactly when no pass is in flight |
| Reindex.Indexer.Invoke | internal/httpapi/reindex.go:68-70 | the goroutine calls Index, which keeps the database sound, and holds what it returned |
| Reindex.Indexer.Report | internal/httpapi/reindex.go:72-93 | the status becomes failed with the error or done, with the result either way, and the indexer is free again |
| Reindex.Indexer.Run | internal/httpapi/reindex.go:68-93 | a launched pass that nothing comes between calls Index once and leaves its outcome as the status |
| Reindex.Indexer.Snapshot | internal/httpapi/reindex.go:95-100 | a snapshot says running exactly when a pass is in flight |

## Left out

- HTTP clients, JSON and the genai SDK: a provider is a function that may fail.
- `checkResult`: its count check is that of `Batched` and its dimension check that of `BuildEmbeddingInsert`, both modelled where they guard the database.
- Postgres internals: each transaction is atomic, and the conflicts of two transactions on one row are failures of one of them; HNSW search, cosine order and migrations are not modelled.
- Embedding.Limited.Embed: does not model when the token bucket grants a token, because that is a library's; each wait for one is granted or not. In `Knowledge` a wait without a token is a call that the context stops before its first attempt.
- Retry.TotalWait: durations are whole nanoseconds and the exponential window is computed exactly; the rounding of float64 for windows beyond 2^53 is not modelled.
- OpenAI.ReadResponse: the library sort is a parameter, any ordered permutation of the response; HTTP and decoding come before it.
- Floating point: normalisation and the fake embedder; vectors are sequences of reals that are only compared.
- The directory walk: `Vault.Scan` takes the entries the walk visits, and `DistinctFiles` says that it visits no path twice.
- The 10 MB limit on one line: lines fit.
- Row limits: INT and SMALLINT exhaustion of ids and chunk indices.
- Insert.InsertMeansBatch: the statement is read by a small reader for statements of its kind; quoting doubles quotes, and pgx's dropping of NUL runes is not modelled, as no slug has one.
- `Storage.Store` is used by one caller at a time; interleaving is proved on the machine, whose steps are the same transactions.
- Knowledge.KnowledgeBase.Index: is stated for one pass alone in the database; for passes over one vault at once, agreement with a rebuild is `Shared.SharedVaultAgrees`. Passes over different vaults undo each other's prunes, and what holds then is `Passes.NoStaleVector` and the lemmas of `Losses`.
- Resume.ResumedPasses: starts where the notes of the scan are stored; a pass that is cut short while storing notes leaves the rest of them to the next pass, and what that one embeds includes their new chunks; that nothing is embedded twice, whatever happens to the vault in between, is `Once.SavedOnce`.
- Chunker.ChunkSizes: a chunk of an oversize paragraph can be white space only, so nothing is said about visible runes in each chunk.
- Reindex.SingleFlight: times and log lines; the snapshot sent with an answer is a second look and may differ from the outcome of the start (`internal/httpapi/handlers.go:236-240`).
- Answers.NoHitDropped: which chunks a search finds, and their scores, are left to the database; generation providers are not modelled.
- HTTP handlers, authentication, shutdown, command lines, configuration, Retry-After parsing (section 10.2.3 of RFC 9110): the hint of a retryable error is an arbitrary number.
- Frontmatter.FrontmatterRoundTrip: is for titles that are trimmed, on one line and without quotes at the edges, and trimmed bodies without carriage returns, because the parser removes exactly those things.
- Lower-casing: `Text.ToLower` is exact on ASCII and on the two other runes that lower to ASCII letters; it leaves the rest alone, which neither extensions, keys nor slugs can tell.
