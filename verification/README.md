# Lattice Cast: protocols and transformations, modelled and proved

A Dafny model of the parts of Lattice Cast whose correctness is not local to one function. Every
module pairs a form that does what the code does (a state machine over its steps, a method over an
array of pieces, a class whose methods update its fields) with statements about all its runs or all
its inputs. `dafny verify dfyconfig.toml` checks all of it.

| module | what it models |
|---|---|
| BlobProtocol, BlobSafety, BlobLeak, BlobRace, BlobService | publishing, downloading and collecting blob files over committed rows, an object store without transactions, a durable cleanup queue and per-key locks |
| SqlSplit, SqlRoundTrip | the migration runner's SQL lexer against a lexer that reads whole tokens |
| Migrations | the migration ledger over failed and repeated runs |
| RefreshTokens, SsoCodes | rotating refresh-token families; one-time codes and tickets of the SSO issuer |
| StorageMove | the move of the archived table storage and its own verification |
| RlsIdentity | the row-level-security identity over sessions, transactions and pooled connections |
| ConfigQueue, EditQueue | the table page's two write queues |
| Csv, TableView, Workflow, IsoWeek, Paging, with Decimals and Basics | the CSV round trip; sort, group and render; workflow graph edits; week numbers; paging |

## What was found

Where the code does not do what its own text says, the model follows the code. A lemma gives an
input, and another says exactly when the promise holds.

- **A blob object can be leaked.** `blob_objects.py` promises a durable collection. The retire
  trigger inserts with `ON CONFLICT DO NOTHING` and so neither waits for nor holds a cleanup record
  that a worker is about to delete. Input: `BlobLeak.DoNothingLeaks`, from an empty system. Exactly:
  `BlobRace.LeaksIffRaces`, a key is leaked if and only if a worker finds it referenced before the
  commit that drops it, the drop is staged before that worker's commit, and both commit. With an
  insert that holds the record no run leaks (`BlobLeak.HoldingNeverLeaks`). No committed cell ever
  loses its object either way.
- **A comment can be kept as a statement.** `split_sql` ends a line comment at a line feed only, but
  drops pieces by `splitlines`, which also breaks at form feeds, line separators and others. Input:
  `SqlRoundTrip.FormFeedKept`; reading a file turns carriage returns into line feeds but leaves a
  form feed. Exactly: `SqlRoundTrip.DroppedPiece`, a piece is dropped if and only if it is white
  space and comments that end at any line break.
- **An expired refresh token ends its family.** The comment in `refresh_login` says that expired
  values affect no row; the code revokes the family of any known token it cannot exchange. Input:
  `RefreshTokens.ExpiredTokenEnds`. Exactly: `RefreshTokens.StepEndsIff`.
- **The storage verification compares less than it says.** Its text says it fails when an archived
  table or view differs. It compares no table definition and no view's author or times. Inputs:
  `StorageMove.MoveCommitsOtherTable`, a move that commits although the columns differ, and
  `StorageMove.VerifyPassesOtherView`. Exactly: `StorageMove.FaithfulIsExactIff` for a verification,
  and `StorageMove.MoveIsExactIff` for a move, by what the storage holds before it.
- **A slow schema response can erase a view setting.** `currentViewConfig` promises merges onto the
  latest server state, but schema requests outside the queue also replace the cache. Input:
  `ConfigQueue.LostPatchIsNotFold`. Exactly: `ConfigQueue.RunInStepIff`, server and cache are in step
  at every moment if and only if every such response carries the server's config or arrives while a
  response of the queue is on its way, and no write that changed something is reported as a failure.
  For the end alone, `ConfigQueue.DrainedIsFoldIff`: by the cache the last write was merged onto.
- **The importer can lose texts.** It keys a row's texts by header in a plain object, so a later
  column replaces an earlier one of the same header, and a text assigned under `__proto__` is
  dropped. Inputs: `Csv.SameHeaderLosesText` and `Csv.ProtoLosesText`. Exactly: `Csv.ImportOfExport`.
  Two columns of one header can only come from a file written elsewhere, since a trigger (V39)
  refuses them in a table; a stored table's export meets the condition of `Csv.ImportOfDistinct`.
- **Week numbers of 1 to 3 January of year 100 are wrong,** because `Date.UTC` reads year 99 as 1999.
  Exactly: `IsoWeek.WeekNumberIsIsoIff`.

## Assumptions

- Blob protocol: `uuid4` keys are new; a commit is visible before its locks are released; every
  statement reads what is committed when it runs; a lock that has to wait is an action not possible
  yet; an answer of the object store takes effect at its await, except that a failed delete may or
  may not have taken effect; the blob columns of a table do not change. Keys are records (cell,
  pending or published, number) rather than text, and a cleanup batch is any set of at most 16
  unlocked records.
- Refresh tokens and SSO: every request is one step, and one that fails before its commit changes
  nothing; drawn tokens, codes and families are new; hashes, PKCE digests and password checks are
  parameters; tokens and codes are compared by their stored hash.
- Migrations: one runner at a time, and migration bodies do not touch the ledger. A call may fail at
  any point, and a commit may take effect although its answer is lost.
- Storage move: row and view triggers leave archived data as it is and raise the row counter;
  archived ids are not 0, so no trigger assigns new ones; the statements of one move do not fail.
- Row-level security: a session works through one transaction at a time, without savepoints; any
  connection may serve any transaction, and the pool's clearing may or may not reach it.
- Write queues: a request that failed had no effect or, as `ConfigQueue.Lose` and `EditQueue.Lost`
  model it, took effect unheard; the config queue's property is about the Schema tab, whose config
  the server replaces wholesale.
- `Array.sort` is stable, and its result is then determined (`TableView.StableSortIsUnique`); text
  collation is any total preorder; grouping keys live in a map without inherited names.

## Model

| member | source | states |
|---|---|---|
| BlobSafety.StepKeepsInv | backend/src/router/api/rows.py:201-249 | Every await of every upload, cell change, row deletion, download and cleanup, every crash and every rollback keeps the invariant that makes the main theorems true. |
| BlobSafety.RunKeepsInv | backend/src/services/blob_objects.py:29-67 | The invariant holds in every reachable state, for any number of workers and requests interleaved in any way. |
| BlobSafety.CommittedBlobIsStored | backend/src/router/api/rows.py:215-248 | In every reachable state each committed blob cell names an object in the store, and the object's bytes are those published under the cell's descriptor. |
| BlobSafety.ReferencedIsLive | backend/src/services/blob_objects.py:46-55 | The worker's search over all cells of all rows finds a key exactly if the one cell the key was made for still names it. |
| BlobSafety.ValidatedObjectStays | backend/src/router/api/rows.py:273-306 | A download past its retry loop keeps its object, with the published bytes, through any replacements, deletions and cleanups until its own transaction ends. |
| BlobSafety.StepShowsOldOrNew | backend/src/router/api/rows.py:206-248 | At every step a cell's committed value changes only by a commit, and then to the whole new descriptor of a finished upload, to cleared, or with its row. |
| BlobSafety.StepLeavesOthers | backend/src/services/blob_objects.py:13-26 | No step touches the locks, staged changes or progress of another process. |
| BlobLeak.RetiredIsDropped | migration/V71__table_scoped_child_storage.sql:94-115 | The trigger's join with the ownership table selects exactly the keys that the row's new image takes out of the rows. |
| BlobLeak.StepKeepsRecords | backend/src/services/blob_objects.py:13-26 | Every step keeps the recovery records: each stored or staged object of an upload is queued before it exists, and a worker holds the records it works on. |
| BlobLeak.StepLeaksIff | migration/V71__table_scoped_child_storage.sql:94-115 | A step loses the last trace of an object exactly if it commits a change that drops a key whose record is gone by then. |
| BlobLeak.RunLeaksIff | backend/src/services/blob_objects.py:56-66 | Over a whole run, every stored object is referenced or queued at the end exactly if every commit of the run was safe. |
| BlobLeak.LeakStays | backend/src/services/blob_objects.py:33-40 | A leaked object is never found again by any later run. |
| BlobLeak.HoldingNeverLeaks | backend/src/services/blob_objects.py:1-19 | With an insert that waits for and holds the queued record, no run leaks an object. |
| BlobLeak.RaceLeaks | migration/V71__table_scoped_child_storage.sql:94-115 | From every reachable state in which a live key is still queued and nobody is at work on its row, a deletion of its cell and a cleanup can interleave so that the object is leaked. |
| BlobLeak.DoNothingLeaks | migration/V71__table_scoped_child_storage.sql:108-112 | A concrete run from an empty system ends with a leaked object under the migrations' own insert. |
| BlobLeak.CleanupKeepsLiveKey | backend/src/services/blob_objects.py:46-64 | A worker alone with a live queued key deletes the record and keeps the object. |
| BlobLeak.SoloUpload | backend/src/router/api/rows.py:215-239 | An upload with no other process around takes all its steps and lands its key, still queued, in the row. |
| BlobRace.LeaksIffRaces | migration/V71__table_scoped_child_storage.sql:94-115 | Over any run from an empty system a key is leaked exactly if a worker found it referenced before the commit that drops it, the drop was staged before that worker's commit, and both committed. |
| BlobRace.LeakIsRace | backend/src/services/blob_objects.py:46-66 | Every leaked key has its worker and its writer in the schedule. |
| BlobRace.RaceIsLeak | backend/src/services/blob_objects.py:46-66 | Every such pair leaks the key for good, whichever of them commits first. |
| BlobRace.WorkersLeakNothing | backend/src/services/blob_objects.py:46-66 | Any number of workers, interleaved in any way, with failing deletes, rollbacks and crashes, change no row and neither leak a key nor recover one, once only workers are left. |
| BlobRace.CollectionIsExactIff | backend/src/services/blob_objects.py:29-76 | When such workers have emptied the queue, whatever failed on the way, the stored objects are exactly the referenced ones if and only if none was leaked when they were left alone. |
| BlobService.Server.PutBlobCell | backend/src/router/api/rows.py:193-249 | A success has taken the upload's actions in their order and shows the whole new file; an error at any await ends in a rollback before the commit, or is the commit whose answer was lost, and then the whole file is there. |
| BlobService.Server.ChangeRow | backend/src/router/api/rows.py:134-177 | A replaced or patched row has the given cells and keeps every blob cell; a cleared cell and a deleted row change nothing else; an error publishes nothing, or is the commit whose answer was lost. |
| BlobService.Server.GetBlobCell | backend/src/router/api/rows.py:259-317 | Within four tries the download returns bytes published under the descriptor it returns, answers that there is none or that it changed, or is still waiting for a shared lock that another process blocks; alone it succeeds exactly if the cell holds a file. |
| BlobService.Server.CleanupOnce | backend/src/services/blob_objects.py:29-67 | One batch, with others acting at every await, the store and any statement failing at will, and the commit failing or unheard; undisturbed it removes exactly the unreferenced objects of the batch and the batch's records. |
| BlobService.Server.CleanupLoop | backend/src/services/blob_objects.py:70-76 | Once all other work has ended, any passes that fail at will and then passes that do not leave the queue empty, and leave exactly the referenced objects if and only if none was leaked before. |
| BlobService.OwnChangeCommit | backend/src/repository/row.py:101-188 | What the commit of a row change leaves in the rows, cell by cell. |
| BlobService.ShownClear | backend/src/router/api/rows.py:337-344 | Deleting a cell's file clears that cell and changes no other. |
| BlobService.ShownEdit | migration/V71__table_scoped_child_storage.sql:483-569 | A patch merges and a replacement swaps all plain cells; either way every blob cell stays as it was. |
| BlobService.ProtectedIsStored | backend/src/router/api/rows.py:303-306 | Under the shared lock the object is there with the bytes published under the descriptor. |
| SqlSplit.SplitSql | migration/migrate.py:53-175 | The one-pass lexer with its six flags returns what the token lexer's cuts give: stripped pieces with something to run. |
| SqlSplit.TurnStep | migration/migrate.py:88-170 | One turn of the loop, in any mode, is a step through one token of the token lexer. |
| SqlRoundTrip.JoinPieces | migration/migrate.py:84-175 | The raw pieces joined with semicolons give back the input exactly. |
| SqlRoundTrip.PiecesAreWhole | migration/migrate.py:53-63 | No piece can be cut again, and only the last can end inside a literal, a comment block or a dollar block. |
| SqlRoundTrip.WholeThenCut | migration/migrate.py:88-93 | A line feed and a semicolon after a whole text end exactly that text's piece, even if it ends in a line comment. |
| SqlRoundTrip.TrimRight | migration/migrate.py:75-76 | Stripping white space at the end of a piece neither opens a token nor makes a cut. |
| SqlRoundTrip.SplitAgain | migration/migrate.py:75-82 | For every input, joining the statements with a line feed and a semicolon and splitting again returns the same statements. |
| SqlRoundTrip.UnkeptIsBlank | migration/migrate.py:75-82 | A text that is dropped consists of white space and line comments only. |
| SqlRoundTrip.KeepsIff | migration/migrate.py:75-82 | The line-by-line test agrees with reading white space and comments off the text, for every text. |
| SqlRoundTrip.DroppedPiece | migration/migrate.py:75-82 | A piece is dropped exactly if it is white space and comments that end at any line break; every dropped piece is white space and line comments, and with line feeds as the only breaks all of those are dropped. |
| SqlRoundTrip.CommentKept | migration/migrate.py:77-82 | A piece that is one comment with text behind another line break than a line feed is kept as a statement. |
| SqlRoundTrip.FormFeedKept | migration/migrate.py:77-82 | Such a piece as a file can hold it, with a form feed. |
| Migrations.BodyCutsAlike | migration/migrate.py:301 | Only a header comment up to a line feed is taken off a file, and without it the file is cut in the same places. |
| Migrations.RunFile | migration/migrate.py:300-319 | All of a pending file's statements and its ledger row are committed, or nothing is, wherever a call fails. |
| Migrations.ApplyFile | migration/migrate.py:269-319 | A changed applied file is refused without effect; a blank checksum is filled; a pending file is run. |
| Migrations.ApplyMigrations | migration/migrate.py:219-322 | A run takes the directory's files by version, gets through some first part of them, and reports unknown files, a changed file or a failure exactly when it stops for that. |
| Migrations.SortFilesSorts | migration/migrate.py:241-242 | The files are put in version order and none is lost. |
| Migrations.RunGrows | migration/migrate.py:262-322 | A run applies a prefix of the pending files in version order, adds exactly their ledger rows and never changes a non-empty checksum. |
| Migrations.RunsGrow | migration/migrate.py:241-322 | Over any runs with any files and failures, the files that took effect are exactly those the ledger gained, each once. |
| Migrations.LedgerIsEffect | migration/migrate.py:229-240 | On a fresh database the ledger is exactly the files whose statements are in effect, with their checksums. |
| Migrations.Resume | migration/migrate.py:269-322 | Running again over the same files resumes where the furthest run stopped. |
| Migrations.RunsAreOne | migration/migrate.py:269-322 | Any sequence of failed and repeated runs over fixed files leaves the state of one run as far as the furthest of them. |
| Migrations.SuccessIsOneRun | migration/migrate.py:269-322 | Once one run succeeds the state is that of a single uninterrupted run. |
| Migrations.ChangedFileStops | migration/migrate.py:278-287 | A file changed after it was applied stops every later run before it. |
| RefreshTokens.TokenStore.PasswordLogin | backend/src/router/api/auth.py:134-177 | A login starts a family with one live token; an unknown account or a wrong password stores nothing, and an account without a password is not asked for one. |
| RefreshTokens.TokenStore.RefreshLogin | backend/src/router/api/auth.py:180-240 | Exactly an unrevoked, unexpired token is exchanged, for one of the same user; anything else is refused. |
| RefreshTokens.TokenStore.LogoutRefreshToken | backend/src/router/api/auth.py:244-267 | A known token's whole family is ended, so that none of its tokens is exchanged at any time, and every other family is as it was; an unknown token changes nothing. |
| RefreshTokens.StepKeepsValid | backend/src/services/lc_auth.py:82-113 | Every request keeps one newest token a family, one user a family, and replaced tokens revoked. |
| RefreshTokens.RunFamilyCounts | backend/src/router/api/auth.py:190-240 | After any run each family has at most one unrevoked token and exactly one more token than it has replaced ones. |
| RefreshTokens.RunKeepsTokens | backend/src/router/api/auth.py:215-225 | Tokens are never lost or rebound, and the first revocation time stays. |
| RefreshTokens.StepEndsIff | backend/src/router/api/auth.py:206-227 | A family is ended exactly by presenting a known token of it that cannot be exchanged, or by a logout with one of its tokens. |
| RefreshTokens.ExpiredTokenEnds | backend/src/router/api/auth.py:206-226 | Presenting an expired token ends its family, whatever the comment beside the code says. |
| RefreshTokens.RunEndsIff | backend/src/router/api/auth.py:190-267 | The same over whole runs: an ended family stays ended. |
| RefreshTokens.EndedForGood | backend/src/router/api/auth.py:190-240 | No token of an ended family is exchanged at any later time (sections 6 and 10.4 of RFC 6749). |
| RefreshTokens.ReplayEndsFamily | backend/src/router/api/auth.py:184-189 | A token exchanged once and presented again, however much later, is refused and ends its family. |
| SsoCodes.Issuer.CreateClient | backend/src/router/api/sso.py:197-241 | A client is registered exactly if its URIs are distinct and valid, it is not public with a secret, and its id is new. |
| SsoCodes.Issuer.Authorize | backend/src/router/api/sso.py:245-277 | A code is issued exactly for a registered URI, a long enough challenge and a live session, and is bound to all three. |
| SsoCodes.Issuer.Handoff | backend/src/router/api/sso.py:281-302 | A launch ticket is issued exactly for a public client, bound to the bearer's user and the default URI. |
| SsoCodes.Issuer.Launch | backend/src/router/api/sso.py:306-331 | An open launch ticket is used up and a browser ticket for the same user, client and URI is made; anything else changes nothing. |
| SsoCodes.Issuer.BrowserToken | backend/src/router/api/sso.py:335-360 | A JWT is given exactly for an open browser ticket of this client at its default URI, asked for from that URI's origin. |
| SsoCodes.Issuer.Token | backend/src/router/api/sso.py:364-399 | A refused redemption rolls back and leaves the code unused; an accepted one uses it up. |
| SsoCodes.Issuer.Logout | backend/src/router/api/sso.py:403-414 | No authorization accepts the cookie any more; other sessions, the codes and the clients are as they were. |
| SsoCodes.LogoutStopsAuthorize | backend/src/router/api/sso.py:403-414 | After a logout no code is issued for that cookie. |
| SsoCodes.StepKeepsValid | backend/src/router/api/sso.py:105-142 | Every request keeps that authorization codes and only they carry a challenge, and that handoff tickets belong to public clients. |
| SsoCodes.TicketIsNoCode | backend/src/router/api/sso.py:373-396 | A launch or browser ticket is never redeemed at the token endpoint, though that never looks at the flow, and is left unused. |
| SsoCodes.RedeemsIff | backend/src/router/api/sso.py:366-397 | A code is redeemed exactly if it is an open authorization code of this client and URI, the verifier hashes to its challenge, and the client proves itself (section 4.1.2 of RFC 6749, section 4.6 of RFC 7636). |
| SsoCodes.UsedOnce | backend/src/router/api/sso.py:311-319 | Over any run each code or ticket is used up at most once, by whichever endpoint. |
| SsoCodes.CodeHasOrigin | backend/src/router/api/sso.py:105-142 | Every stored code is as some accepted request made it, but for its being used. |
| SsoCodes.TokenHasTrace | backend/src/router/api/sso.py:287-358 | Every browser-token JWT traces to a launch and a handoff before it, for the same user and client. |
| SsoCodes.TraceIsUnique | backend/src/router/api/sso.py:309-358 | No two JWTs trace to the same launch or the same handoff. |
| SsoCodes.GrantHasOrigin | backend/src/router/api/sso.py:245-399 | Every token grant goes to the user whose session asked for the code, at that client, URI and challenge, within sixty seconds. |
| StorageMove.Connection.CopyRows | migration/scripts/move_table_storage.py:84-110 | Rows are inserted or overwritten with the archive's values, a matching row is not written, and the trigger raises the counters. |
| StorageMove.Connection.Apply | migration/scripts/move_table_storage.py:332-352 | The sequence of statements is one transformation of the new storage. |
| StorageMove.Connection.Verify | migration/scripts/move_table_storage.py:355-369 | The five counts are all zero exactly if everything archived is in the new storage. |
| StorageMove.Connection.Run | migration/scripts/move_table_storage.py:372-403 | The move is committed whole if it is faithful, and otherwise nothing is. |
| StorageMove.ChecksFaithful | migration/scripts/move_table_storage.py:234-308 | Counting offending archive entries and quantifying over them say the same. |
| StorageMove.MovedSettles | migration/scripts/move_table_storage.py:56-191 | From any state the move ends with every archived table, row, view, mark and key in place and no seeded view left over. |
| StorageMove.MoveIsIdempotent | migration/scripts/move_table_storage.py:20-23 | From any state a second move changes nothing, in whatever order it scans the archive. |
| StorageMove.MoveIsFaithfulIff | migration/scripts/move_table_storage.py:180-191 | The move passes its own verification exactly if no archived blob key already belongs to another cell. |
| StorageMove.MoveKeepsTables | migration/scripts/move_table_storage.py:56-82 | Tables already there stay as they are, and only archived names are added. |
| StorageMove.MoveKeepsTheRest | migration/scripts/move_table_storage.py:134-161 | A row that no archived row names is unchanged, and so is a view that no archived view names, but for the one the migration seeded. |
| StorageMove.MoveRaisesCounters | migration/scripts/move_table_storage.py:163-178 | No counter falls, those of other tables stay, and every archived row and mark is covered. |
| StorageMove.MoveKeepsOwners | migration/scripts/move_table_storage.py:180-191 | A blob object keeps the owner it has. |
| StorageMove.InsertedTable | migration/scripts/move_table_storage.py:44-82 | A table that was not there gets its archived definition. |
| StorageMove.MoveBuildsIndexes | migration/scripts/move_table_storage.py:193-227 | Every queried column of a moved table is indexed under the new identity. |
| StorageMove.TableConfigNotCompared | migration/scripts/move_table_storage.py:25-29 | Giving a moved table any other columns does not make the verification fail. |
| StorageMove.FaithfulIsExactIff | migration/scripts/move_table_storage.py:234-308 | What passes the verification gives the archive back exactly if no table of an archived name has another definition and no archived view another author or time. |
| StorageMove.MoveIsExactIff | migration/scripts/move_table_storage.py:20-29 | A move gives the archive back exactly if, before it, no archived blob key is taken and no table of an archived name has another definition. |
| StorageMove.MoveRestoresViews | migration/scripts/move_table_storage.py:112-132 | The move overwrites authors and times of archived views, whatever the storage held. |
| StorageMove.MoveCommitsOtherTable | migration/scripts/move_table_storage.py:56-82 | A move that commits and leaves other columns than the archive's. |
| StorageMove.VerifyPassesOtherView | migration/scripts/move_table_storage.py:261-274 | A verification that passes a view of another author. |
| RlsIdentity.Engine.AutoBegin | backend/src/core/db.py:87-129 | Afterwards a transaction is open that shows the session's own identity, whatever the connection served before; the other sessions show what they did. |
| RlsIdentity.Engine.SetRlsContext | backend/src/core/db.py:208-223 | Afterwards the open transaction shows the new identity, which is also stashed for later ones; the other sessions show what they did. |
| RlsIdentity.Engine.ReapplyRlsContext | backend/src/core/db.py:226-240 | A stashed identity shows in the open transaction afterwards; without one nothing happens; the other sessions show what they did. |
| RlsIdentity.Engine.Execute | backend/src/middleware/auth.py:80-94 | A statement sees exactly the identity its own session stashed, or none. |
| RlsIdentity.Engine.End | backend/src/core/db.py:42-54 | A commit or rollback gives the connection back without an identity; the session keeps its stash. |
| RlsIdentity.Engine.OpenSession | backend/src/core/db.py:190-196 | A new session has no identity, and the others keep theirs. |
| RlsIdentity.StepKeepsValid | backend/src/core/db.py:40-79 | Every begin, statement, commit, rollback and checkout keeps that open transactions show their own session's identity and connections keep none. |
| RlsIdentity.RunShowsOwn | backend/src/core/db.py:40-79 | After any run, over any connections, each open transaction shows what its own session stashed last, and every session-level value is empty. |
| RlsIdentity.IdleIsBlank | backend/src/core/db.py:66-72 | A connection without a transaction carries no identity, whoever used it before. |
| RlsIdentity.SessionLevelWouldLeak | backend/src/core/db.py:44-57 | An identity set at session level would show in the next transaction on that connection. |
| ConfigQueue.TablePage.RunNext | frontend/src/lib/components/table/table-page.svelte.ts:599-618 | With server and cache in step, what is sent is the patch merged onto the server's own config. |
| ConfigQueue.TablePage.Settle | frontend/src/lib/components/table/table-page.svelte.ts:581-597 | With server and cache in step before, both are the fold of the successful patches afterwards, after a success as after a failure. |
| ConfigQueue.TablePage.UpdateViewConfig | backend/src/repository/table_view.py:247-284 | With server and cache in step, the stored config is the fold of all patches taken so far. |
| ConfigQueue.StepFoldedIff | frontend/src/lib/backend/tables.ts:107-122 | A step leaves the in-order fold exactly if it stores a patch that was merged onto something other than the server's config. |
| ConfigQueue.StepInStepIff | frontend/src/lib/stores/table_schemas.store.ts:70-80 | A step leaves server and cache in step exactly if it neither delivers a late response nor loses the answer of a change. |
| ConfigQueue.RunInStepIff | frontend/src/lib/components/table/table-page.svelte.ts:567-618 | Over a whole run, server and cache are the in-order fold at every moment exactly if every response from outside the queue carries the server's config or arrives while a response of the queue is on its way, and no answer of a change is lost. |
| ConfigQueue.RunQueue | frontend/src/lib/components/table/table-page.svelte.ts:579-590 | Jobs are settled one at a time in the order they were submitted, and a failure blocks none. |
| ConfigQueue.DrainedIsFold | frontend/src/lib/components/table/table-page.svelte.ts:581-618 | When the queue has drained and nothing did harm, every job is settled in order, and server and cache are the in-order fold of the successful patches. |
| ConfigQueue.DrainedIsFoldIff | frontend/src/lib/components/table/table-page.svelte.ts:581-618 | Whatever came late or was lost, a drained queue leaves the server with the fold of the successful patches exactly if the last write to take effect made it good: the cache it was merged onto and the fold of the patches before it come to the same under its patch; if its answer was lost, it stored that fold. |
| ConfigQueue.PatchedAlikeIff | frontend/src/lib/components/table/table-page.svelte.ts:599-618 | Two configs come to the same under a patch of fixed fields exactly if they agree on all other fields. |
| ConfigQueue.QueueAloneIsHarmless | frontend/src/lib/components/table/table-page.svelte.ts:579-597 | Without requests outside the queue and lost answers nothing does harm, whatever the delays and failures. |
| ConfigQueue.LateResponseLosesPatch | frontend/src/lib/stores/table_schemas.store.ts:70-80 | A run in which a late schema response lets the second of two successful patches overwrite the server as if the first had never been. |
| ConfigQueue.LostPatchIsNotFold | frontend/src/lib/components/table/table-page.svelte.ts:567-618 | Two patches of different fields, both reported as successes: the first field is not on the server, and its config is not their fold. |
| EditQueue.Editor.SaveEdit | frontend/src/lib/components/table/table-page.svelte.ts:330-361 | A save returns the write that carries the value shown; it sends a new one unless that value is pending or stored. |
| EditQueue.Editor.CancelEdit | frontend/src/lib/components/table/table-page.svelte.ts:301-310 | Escape takes back no submitted write: with one pending the edit stays as it was, and otherwise it is discarded, its last write, if any, having been stored. |
| EditQueue.StepKeepsValid | frontend/src/lib/components/table/table-page.svelte.ts:328-361 | Every step keeps that the server got the unrefused writes in submission order, with at most one on its way. |
| EditQueue.SaveAgain | frontend/src/lib/components/table/table-page.svelte.ts:336-338 | Saving an unchanged value sends nothing while its write is pending or has succeeded, and sends it again once it has failed. |
| EditQueue.RunKeepsOrder | frontend/src/lib/components/table/table-page.svelte.ts:328-361 | The same over whole runs. |
| EditQueue.DrainedKeepsLast | frontend/src/lib/components/table/table-page.svelte.ts:328-330 | Once all writes are settled without a refusal, every cell holds the value submitted for it last. |
| Csv.ParseLine | frontend/src/lib/components/table/table.utils.ts:506-542 | The scanning loop reads the fields of the recursive reader. |
| Csv.ParseCsv | frontend/src/lib/components/table/table.utils.ts:506-508 | The text is split at line ends and blank lines are dropped. |
| Csv.QuotedInverse | frontend/src/lib/components/table/table.utils.ts:462-476 | A quoted field is read back as it was, whatever quotes and commas it holds (section 2 of RFC 4180). |
| Csv.FieldsOfLine | frontend/src/lib/components/table/table.utils.ts:463-476 | A line is read back field by field, except that a null cell at its end leaves none. |
| Csv.ParseOfBuild | frontend/src/lib/components/table/table.utils.ts:460-542 | What the import reads from any exported table without line feeds in its texts. |
| Csv.RoundTrip | frontend/src/lib/components/table/table-page.svelte.ts:802-812 | Headers and all cell texts come back, column by column, exactly if the table has more than one column or no null cell. |
| Csv.ImportRow | frontend/src/lib/components/table/table-page.svelte.ts:806-812 | The loop over the headers gives each header the text of its last column. |
| Csv.ImportOfExport | frontend/src/lib/components/table/table-page.svelte.ts:802-812 | Every text is found under its header exactly if no row is a single null cell, no column is called `__proto__`, and columns of the same header agree in every row. |
| Csv.ImportOfDistinct | migration/V39__column_name_uniqueness.sql:7-26 | With distinct names, as every stored table has them, an export is imported whole exactly if no row is a single null cell and no column is called `__proto__`. |
| Csv.SameHeaderLosesText | frontend/src/lib/components/table/table-page.svelte.ts:806-812 | Of two columns of one header with different texts, one text is lost. |
| Csv.ProtoLosesText | frontend/src/lib/components/table/table-page.svelte.ts:806-812 | In a table with a column called `__proto__` no row is found whole. |
| TableView.SortsAreOrders | frontend/src/lib/components/table/table.utils.ts:337-370 | Every comparison of the sort is a total preorder, in both directions. |
| TableView.SortedIsStable | frontend/src/lib/components/table/table.utils.ts:327-372 | Sorting is a permutation into order that keeps the order of equal rows. |
| TableView.StableSortIsUnique | frontend/src/lib/components/table/table.utils.ts:337-372 | Any stable permutation into order is the same list. |
| TableView.EmptiesLast | frontend/src/lib/components/table/table.utils.ts:356-361 | Rows without an instant come last in both directions. |
| TableView.BuildGroupedRows | frontend/src/lib/components/table/table.utils.ts:386-411 | The loop over the rows builds one group a key, in the order of first appearance. |
| TableView.KeysInOrder | frontend/src/lib/components/table/table.utils.ts:396-406 | The keys of the first rows come first. |
| TableView.GroupsPartition | frontend/src/lib/components/table/table.utils.ts:386-411 | The groups hold every row once, each under its key, sorted as configured. |
| TableView.KeysFacts | frontend/src/lib/components/table/table.utils.ts:374-404 | Group keys are distinct, and exactly those of the rows. |
| TableView.BuildRenderItems | frontend/src/lib/components/table/table.utils.ts:413-437 | The items are headers, the rows of groups not collapsed, and an add line for each of those. |
| TableView.RowsShown | frontend/src/lib/components/table/table.utils.ts:413-437 | The screen shows every row once, but for those of collapsed groups; without groups it shows the sorted rows. |
| TableView.GroupSizes | frontend/src/lib/components/table/table.utils.ts:422-428 | A header's count is the number of rows with its key. |
| TableView.RenderKeysDistinct | frontend/src/lib/components/table/table.utils.ts:104-107 | All render keys are pairwise distinct, grouped or not and whatever is collapsed. |
| TableView.ItemKeyInjective | frontend/src/lib/components/table/table.utils.ts:104-107 | A render key says which row, header or add line it stands for. |
| Decimals.ParseDecimal | frontend/src/lib/stores/table_workflow.store.ts:247-251 | Reading a row id back from its text gives the id. |
| Workflow.DeriveEdges | frontend/src/lib/stores/table_workflow.store.ts:67-125 | The loops push the edges of each row's three reference cells, in order, to rows that are shown. |
| Workflow.RowStore.DeleteNode | frontend/src/lib/stores/table_workflow.store.ts:153-201 | Every other row loses its references to the node, and then the node's row goes. |
| Workflow.RowStore.RemoveEdgeByParts | frontend/src/lib/stores/table_workflow.store.ts:203-235 | Only the source row changes, in the cell the handle names. |
| Workflow.DeleteKeepsOtherEdges | frontend/src/lib/stores/table_workflow.store.ts:153-201 | Deleting a node leaves exactly the old edges, in order, but for those touching it. |
| Workflow.DeleteOnGraph | frontend/src/lib/stores/table_workflow.store.ts:36-42 | The same on the tab of any graph. |
| Workflow.DeleteLeavesNoReference | frontend/src/lib/stores/table_workflow.store.ts:153-201 | No stored reference to the node is left, shown as an edge or not. |
| Workflow.EdgeIdInjective | frontend/src/lib/stores/table_workflow.store.ts:87-115 | An edge's id says its source, its handle and its target. |
| Workflow.RemoveKeepsOtherEdges | frontend/src/lib/stores/table_workflow.store.ts:203-252 | Removing the edge an id names leaves exactly the old edges, in order, but for those bearing that id. |
| IsoWeek.IsoByThursday | frontend/src/lib/components/table/timeline.utils.ts:62-67 | Counting weeks on from a year's first Thursday numbers each week by its own Thursday. |
| IsoWeek.WeeksCountOn | frontend/src/lib/components/table/timeline.utils.ts:62-67 | A number holds from Monday to Sunday and goes up by one a week until it restarts at 1 in the week with a year's first Thursday. |
| IsoWeek.NextDay | frontend/src/lib/components/table/timeline.utils.ts:62-67 | Day numbers count on without a gap over the ends of months and years. |
| IsoWeek.IsoRange | frontend/src/lib/components/table/timeline.utils.ts:62-67 | Week numbers run from 1 to 53. |
| IsoWeek.WeekNumberIsIsoIff | frontend/src/lib/components/table/timeline.utils.ts:62-67 | From year 100 on the number shown is the one of section 2.2.10 of ISO 8601:2004, except on the first three days of year 100. |
| Paging.Server.ListByTable | backend/src/repository/row.py:93-99 | A page is the part of the ascending list at the offset when the request arrives. |
| Paging.Server.FetchAllRows | frontend/src/lib/backend/tables.ts:155-168 | With rows only appended, the snapshot is the reverse of the server's list at the last request, and the loop ends if appends do. |
| Paging.NewestFirst | frontend/src/lib/backend/tables.ts:149-154 | The snapshot is newest first and holds no id twice. |

## Left out

- Routing, authorization of workspaces, request models, streaming and the user interface.
- Blob keys of older rows without a random part, plain cells that happen to hold an object with a `key` field, and changes of a table's columns while files are being published.
- Deleting whole tables, users and sessions, whose rows go by cascade.
- SsoCodes.Issuer.CreateClient: does not model deactivating a client, because no endpoint shown does it.
- EditQueue.Editor.SaveEdit: does not model when `commitEdit` closes the editor, only what is sent.
- ConfigQueue.DrainedIsFold: is about harmless runs, for server and cache; `ConfigQueue.DrainedIsFoldIff` is exact for the server over all runs, and `ConfigQueue.RunInStepIff` for every moment.
- Migrations.ApplyMigrations: does not model the container, the linter and the dump around a run.
- StorageMove.Connection.CopyRows: does not model the triggers' requeueing of blob objects, which is why matching rows are not written.
- StorageMove.Connection.Verify: does not model the totals it prints.
- TableView.EmptiesLast: is about date columns; a null in a number column counts as 0.
- Csv.RoundTrip: excludes texts with a line feed, which the parser splits before it looks at quotes.
- Workflow.DeriveEdges: reads a `nexts` cell that is no list of strings as no list.
- IsoWeek.WeekNumberIsIsoIff: starts at year 100; `Date.UTC` reads years 0 to 99 as 1900 to 1999.
- Paging.Server.FetchAllRows: excludes rows deleted between two requests, which shift the offsets.
- Column headers of the timeline, filters, exports as JSON, node positions, subgraph edits and template creation.
