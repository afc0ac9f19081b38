# Simple notes app: a verified model of its core

This project models the core of a small layered note-taking app. The app's
UI lists, creates, edits and deletes text notes. A note may carry one image
file. Five pieces are modelled in Dafny:

- `AddOrUpdateNote` (add_or_update.dfy): the domain layer's one validation
  rule. A note with a null-or-blank title and a blank content is rejected with
  a fixed message. Any other note is forwarded unchanged to the repository.
- `NoteEditor` (editor.dfy): the editor screen's view-model. It is a class
  holding the note, the `isSaving` flag, the effects it has emitted and the
  use-case calls it has made. Its behaviour is specified by pure functions
  (`AttachReaction`, `SaveReaction`, `DeleteReaction`, `React`).
- `NotesList` (notes_list.dfy): the list screen's view-model. A load
  subscription is a sequence of emitted lists, optionally ended by a failure.
  The `onStart`/`distinctUntilChanged`/`catch`/`collect` pipeline is a loop
  proved against the fold `Collect`/`Loaded`. Delete-by-id looks the note up
  in the shown list.
- `NoteMapper` and `NoteRepositoryImpl` (mapper.dfy, repository.dfy): the
  row/domain conversions, and the repository. The repository works over a
  table keyed by id, a set of image paths, and a log of the calls it issues
  to the row store and the file store.
- `NavGraph` (navigation.dfy): the editor route. An optional id is written as
  `note_editor?noteId=<id or -1>` and read back with `-1` mapped to "new
  note".

Clock readings and the outcomes of use cases, the row store and the file
store are method or function parameters. An exception is a `Thrown` value:
whether it is an `IllegalArgumentException`, plus its nullable message.
A null message printed in a Kotlin string template reads "null".

## Model

| member | source | states |
|---|---|---|
| NoteMapper.ToEntity | data/src/main/java/com/example/data/mapper/NoteMapper.kt:17-26 | every field is copied unchanged: id, title, content, imageUri and both timestamps, a null title or image staying null |
| NoteMapper.ToDomain | data/src/main/java/com/example/data/mapper/NoteMapper.kt:6-15 | inverse of ToEntity: `ToEntity(ToDomain(e)) == e` for every row |
| NoteMapper.DomainRoundTrip | data/src/main/java/com/example/data/mapper/NoteMapper.kt:6-26 | `ToDomain(ToEntity(n)) == n` for every note |
| NoteRepositoryImpl.AllNotes | data/src/main/java/com/example/data/repo/NoteRepositoryImpl.kt:19-20 | one emission is mapped row by row through toDomain, keeping length and order |
| NoteRepositoryImpl.AllNotesStream | data/src/main/java/com/example/data/repo/NoteRepositoryImpl.kt:19-20 | `getAllNotes` maps every emission of the store's live list |
| NoteRepositoryImpl.NoteRepository.constructor | data/src/main/java/com/example/data/repo/NoteRepositoryImpl.kt:14-17 | the repository starts over the given table, keyed by id, and file set, with no calls issued |
| NoteRepositoryImpl.NoteRepository.GetNoteById | data/src/main/java/com/example/data/repo/NoteRepositoryImpl.kt:22-23 | over a table keyed by id: a note exactly when some stored row has that id; the note has the requested id and maps back to that row |
| NoteRepositoryImpl.NoteRepository.AddOrUpdateNote | data/src/main/java/com/example/data/repo/NoteRepositoryImpl.kt:25-26 | exactly one insert call, carrying `toEntity(note)`; the store's answer is returned; the table stays keyed by id |
| NoteRepositoryImpl.NoteRepository.DeleteNote | data/src/main/java/com/example/data/repo/NoteRepositoryImpl.kt:28-31 | removes the note's row, so no row with its id remains, then deletes exactly the file `imageUri` iff it is non-null; no other row or file changes; a throwing row delete deletes no file; the table stays keyed by id |
| NoteRepositoryImpl.NoteRepository.SaveImage | data/src/main/java/com/example/data/repo/NoteRepositoryImpl.kt:33-34 | returns exactly what the file store returns or throws |
| AddOrUpdateNote.Check | domain/src/main/java/com/example/domain/use_case/AddOrUpdateNoteUseCase.kt:10-15 | rejects exactly when the title is null-or-blank and the content is blank, with the message "Note must have at least a title or content"; otherwise forwards the unmodified note |
| AddOrUpdateNote.BlankIffNoVisibleChar | domain/src/main/java/com/example/domain/use_case/AddOrUpdateNoteUseCase.kt:10-11 | blank means the string has no non-whitespace character (empty included) |
| AddOrUpdateNote.SaveableIffVisibleChar | domain/src/main/java/com/example/domain/use_case/AddOrUpdateNoteUseCase.kt:10-12 | `IsSaveable` (not `isNullOrBlank` title and `isBlank` content): a note passes exactly when its non-null title or its content has a non-whitespace character |
| AddOrUpdateNote.TitleAloneIsEnough | domain/src/test/java/com/example/domain/use_case/AddOrUpdateNoteUseCaseTest.kt:58-70 | a non-blank title with any content, even empty, is forwarded |
| AddOrUpdateNote.ContentAloneIsEnough | domain/src/test/java/com/example/domain/use_case/AddOrUpdateNoteUseCaseTest.kt:72-85 | non-blank content is forwarded, even with a null title |
| AddOrUpdateNote.BlankNoteRejected | domain/src/test/java/com/example/domain/use_case/AddOrUpdateNoteUseCaseTest.kt:39-55 | a null or blank title with space-only content is rejected with the exact message |
| AddOrUpdateNote.CheckIgnoresMetadata | domain/src/main/java/com/example/domain/use_case/AddOrUpdateNoteUseCase.kt:10-11 | acceptance depends only on title and content, never on id, imageUri or timestamps |
| AddOrUpdateNote.Invoke | domain/src/main/java/com/example/domain/use_case/AddOrUpdateNoteUseCase.kt:9-16 | a rejected note throws `IllegalArgumentException` with the message and the repository is not called; an accepted note reaches the repository once, unmodified; the repository stays keyed by id |
| NavGraph.ParseDecimalRoundTrip | presentation/src/main/java/com/example/presentation/ui/nav_graph/NotesNavGraph.kt:31-37 | reading the integer route argument back gives the integer that was printed |
| NavGraph.DecimalString | presentation/src/main/java/com/example/presentation/ui/nav_graph/NotesNavGraph.kt:17 | `Int.toString()`: a minus sign exactly for negative integers, then decimal digits without a leading zero (a lone "0" for zero) |
| NavGraph.ParseDecimal | presentation/src/main/java/com/example/presentation/ui/nav_graph/NotesNavGraph.kt:31-37 | the integer argument is read exactly from an optional sign and at least one digit; a minus sign gives a non-positive value, otherwise a non-negative one |
| NavGraph.EditorNoteId | presentation/src/main/java/com/example/presentation/ui/nav_graph/NotesNavGraph.kt:28-37 | a route without the prefix yields null; an id is never -1 and is the integer the argument after the prefix reads as |
| NavGraph.CreateRoute | presentation/src/main/java/com/example/presentation/ui/nav_graph/NotesNavGraph.kt:17 | every route starts with `note_editor?noteId=` and carries an argument after it |
| NavGraph.DropSentinel | presentation/src/main/java/com/example/presentation/ui/nav_graph/NotesNavGraph.kt:37 | -1 becomes null, every other integer is kept |
| NavGraph.RouteRoundTrip | presentation/src/main/java/com/example/presentation/ui/nav_graph/NotesNavGraph.kt:17-37 | decoding `createRoute(x)` gives back `x`, except `x == -1`, which arrives as null |
| NavGraph.SentinelCollision | presentation/src/main/java/com/example/presentation/ui/nav_graph/NotesNavGraph.kt:17 | `createRoute(null)` and `createRoute(-1)` are the same route |
| NavGraph.NewNoteRoute | presentation/src/main/java/com/example/presentation/ui/nav_graph/NotesNavGraph.kt:17 | `createRoute(null)` is exactly "note_editor?noteId=-1" |
| NavGraph.CreateRouteInjective | presentation/src/main/java/com/example/presentation/ui/nav_graph/NotesNavGraph.kt:17 | apart from that collision, distinct optional ids give distinct routes |
| NoteEditor.NoteIdArg | presentation/src/main/java/com/example/presentation/ui/note_editor/NoteEditorViewModel.kt:38 | no argument or the argument -1 means no id; any other argument is the id |
| NoteEditor.EmptyNote | presentation/src/main/java/com/example/presentation/ui/note_editor/NoteEditorViewModel.kt:127-134 | id 0, null title, empty content, null image, the two clock readings as timestamps; such a note fails the add-or-update rule |
| NoteEditor.InitialNote | presentation/src/main/java/com/example/presentation/ui/note_editor/NoteEditorViewModel.kt:44-48 | the found note for the id; with no id, or nothing found, a note with id 0, null title, empty content, null image and the clock readings; a throwing lookup (not caught) leaves the held note |
| NoteEditor.Stamp | presentation/src/main/java/com/example/presentation/ui/note_editor/NoteEditorViewModel.kt:90-94 | `updatedAt = now`; `createdAt = now` for id 0, else kept; every other field identical |
| NoteEditor.StampKeepsSaveability | presentation/src/main/java/com/example/presentation/ui/note_editor/NoteEditorViewModel.kt:90-95 | stamping never changes whether the note passes the add-or-update rule |
| NoteEditor.AttachReaction | presentation/src/main/java/com/example/presentation/ui/note_editor/NoteEditorViewModel.kt:71-83 | calls save-image once; on success only imageUri becomes the returned path and nothing is emitted; on failure the note is unchanged and the one toast is "Failed to attach image: " followed by the exception message; never left saving |
| NoteEditor.SaveReaction | presentation/src/main/java/com/example/presentation/ui/note_editor/NoteEditorViewModel.kt:85-105 | the stamped held note goes to the use case; the state's note is not replaced; one effect: BackToList iff success, the validation message or "Invalid note", or "Save failed: " followed by the exception message; not saving afterwards |
| NoteEditor.DeleteReaction | presentation/src/main/java/com/example/presentation/ui/note_editor/NoteEditorViewModel.kt:107-125 | id 0: exactly the toast "No note to delete", no call, state untouched; otherwise delete is called with the held note, BackToList iff success, else "Delete failed: " followed by the exception message; not saving afterwards |
| NoteEditor.React | presentation/src/main/java/com/example/presentation/ui/note_editor/NoteEditorViewModel.kt:51-65 | Load does nothing; title/content edits and ClearImage change only that one field, keep `isSaving`, emit nothing and call nothing; the other events react as above |
| NoteEditor.NotSavingAfterUseCase | presentation/src/main/java/com/example/presentation/ui/note_editor/NoteEditorViewModel.kt:79-81 | every event that called a use case leaves `isSaving` false, whatever the outcome |
| NoteEditor.SaveOfUnsaveableNote | presentation/src/main/java/com/example/presentation/ui/note_editor/NoteEditorViewModel.kt:95-98 | saving a note that fails the rule shows exactly the rule's message |
| NoteEditor.NoteEditorViewModel.constructor | presentation/src/main/java/com/example/presentation/ui/note_editor/NoteEditorViewModel.kt:32-42 | starts not saving with no effects, holding the default empty note updated by `loadNote`; looks the id up only when there is one |
| NoteEditor.NoteEditorViewModel.LoadNote | presentation/src/main/java/com/example/presentation/ui/note_editor/NoteEditorViewModel.kt:44-48 | the held note becomes InitialNote of the old one; get-by-id is called only with a decoded id |
| NoteEditor.NoteEditorViewModel.UpdateNote | presentation/src/main/java/com/example/presentation/ui/note_editor/NoteEditorViewModel.kt:63-65 | the held note becomes the transform of the old one |
| NoteEditor.NoteEditorViewModel.SetLoading | presentation/src/main/java/com/example/presentation/ui/note_editor/NoteEditorViewModel.kt:67-69 | sets `isSaving` |
| NoteEditor.NoteEditorViewModel.AttachImage | presentation/src/main/java/com/example/presentation/ui/note_editor/NoteEditorViewModel.kt:71-83 | the new state, effects and calls are those of AttachReaction |
| NoteEditor.NoteEditorViewModel.SaveNote | presentation/src/main/java/com/example/presentation/ui/note_editor/NoteEditorViewModel.kt:85-105 | the new state, effects and calls are those of SaveReaction |
| NoteEditor.NoteEditorViewModel.SaveThrough | presentation/src/main/java/com/example/presentation/ui/note_editor/NoteEditorViewModel.kt:85-105 | saving through the real use case: a note failing the rule shows the rule's message and leaves the repository untouched; otherwise the repository receives the stamped note, its table becomes the one the store leaves, the store's answer is the outcome, and a returning insert leads to BackToList; the table stays keyed by id |
| NoteEditor.NoteEditorViewModel.DeleteNote | presentation/src/main/java/com/example/presentation/ui/note_editor/NoteEditorViewModel.kt:107-125 | the new state, effects and calls are those of DeleteReaction |
| NoteEditor.NoteEditorViewModel.OnEvent | presentation/src/main/java/com/example/presentation/ui/note_editor/NoteEditorViewModel.kt:51-61 | the new state, effects and calls are those of React |
| NotesList.Observed | presentation/src/main/java/com/example/presentation/ui/note_list/NotesListViewModel.kt:49 | the lists that pass distinct-until-changed: drawn from the stream, no two consecutive ones equal, the first differs from the list seen before, and the first emission of a fresh subscription always passes (ObservedSnoc gives the full step) |
| NotesList.ObservedSnoc | presentation/src/main/java/com/example/presentation/ui/note_list/NotesListViewModel.kt:49 | one emission at a time: a new list passes exactly when it differs from the list just before it, and the lists that passed earlier are kept in order |
| NotesList.CollectShowsLastObserved | presentation/src/main/java/com/example/presentation/ui/note_list/NotesListViewModel.kt:49-60 | the state after collecting is fixed by the last list that passed: not loading, that list, no error; unchanged if none passed |
| NotesList.ObservedEndsWithLast | presentation/src/main/java/com/example/presentation/ui/note_list/NotesListViewModel.kt:49 | the last list that passes is the last list emitted |
| NotesList.RepeatsOnly | presentation/src/main/java/com/example/presentation/ui/note_list/NotesListViewModel.kt:49 | when nothing passes, every emission repeats the list seen before |
| NotesList.Collect | presentation/src/main/java/com/example/presentation/ui/note_list/NotesListViewModel.kt:58-60 | the collect step: with no lists the state is unchanged; otherwise it is unchanged or shows one of the lists, not loading, no error; once a fresh subscription has emitted, it is not loading and has no error |
| NotesList.Loaded | presentation/src/main/java/com/example/presentation/ui/note_list/NotesListViewModel.kt:45-60 | `loadNotes`: the notes shown are the old ones or an emitted list; without failure no error, loading exactly when nothing was emitted; a failure ends with loading off and its message or "Unknown error" |
| NotesList.LoadShowsLastList | presentation/src/main/java/com/example/presentation/ui/note_list/NotesListViewModel.kt:45-62 | a subscription that emits and does not fail ends showing its last list, not loading, no error |
| NotesList.LoadFromRepository | presentation/src/main/java/com/example/presentation/ui/note_list/NotesListViewModel.kt:45-60 | a load over the repository's `getAllNotes` stream that emits and does not fail shows the last table mapped row by row through toDomain |
| NotesList.FailureKeepsNotes | presentation/src/main/java/com/example/presentation/ui/note_list/NotesListViewModel.kt:50-56 | a failure ends the load with loading off, its message or "Unknown error" as the error, and the notes that were shown kept |
| NotesList.CollectAppend | presentation/src/main/java/com/example/presentation/ui/note_list/NotesListViewModel.kt:58-60 | collecting a stream equals collecting its two halves one after the other |
| NotesList.RepeatedEmissionIgnored | presentation/src/main/java/com/example/presentation/ui/note_list/NotesListViewModel.kt:49 | an emission equal to the one before it causes no state change |
| NotesList.NothingEmittedYet | presentation/src/main/java/com/example/presentation/ui/note_list/NoteListState.kt:5-9 | before any emission the state is loading with no error; from the initial state: loading, no notes, no error |
| NotesList.EmptyTwiceObservedOnce | presentation/src/main/java/com/example/presentation/ui/note_list/NotesListViewModel.kt:49 | emitting the empty list twice yields one observable change |
| NotesList.FirstWithId | presentation/src/main/java/com/example/presentation/ui/note_list/NotesListViewModel.kt:69 | null exactly when no shown note has the id; otherwise the first shown note with that id |
| NotesList.DeleteReaction | presentation/src/main/java/com/example/presentation/ui/note_list/NotesListViewModel.kt:67-80 | not found: exactly the toast "Note not found" and no delete; found: delete is called with that first note; success toasts "Note deleted successfully" and reloads; failure toasts "Failed to delete note: " followed by the exception message and does not reload |
| NotesList.React | presentation/src/main/java/com/example/presentation/ui/note_list/NotesListViewModel.kt:35-43 | Open, AddNew and LongClick each send exactly one effect (NavigateToEditor(id), NavigateToEditor(null), ShowOptionsDialog(id)) and leave the state unchanged; Load reloads; ConfirmDelete reacts as DeleteReaction |
| NotesList.NotesListViewModel.constructor | presentation/src/main/java/com/example/presentation/ui/note_list/NotesListViewModel.kt:25-33 | the initial state followed by the first load; no effects |
| NotesList.NotesListViewModel.LoadNotes | presentation/src/main/java/com/example/presentation/ui/note_list/NotesListViewModel.kt:45-62 | the loop over emissions leaves exactly the state `Loaded` specifies |
| NotesList.NotesListViewModel.SendEffect | presentation/src/main/java/com/example/presentation/ui/note_list/NotesListViewModel.kt:82-84 | appends the effect |
| NotesList.NotesListViewModel.OpenEditor | presentation/src/main/java/com/example/presentation/ui/note_list/NotesListViewModel.kt:64 | appends NavigateToEditor(id) |
| NotesList.NotesListViewModel.ShowOptions | presentation/src/main/java/com/example/presentation/ui/note_list/NotesListViewModel.kt:65 | appends ShowOptionsDialog(id) |
| NotesList.NotesListViewModel.Delete | presentation/src/main/java/com/example/presentation/ui/note_list/NotesListViewModel.kt:67-80 | the new state, effects and deletes are those of DeleteReaction |
| NotesList.NotesListViewModel.OnEvent | presentation/src/main/java/com/example/presentation/ui/note_list/NotesListViewModel.kt:35-43 | the new state, effects and deletes are those of React |

## Left out

- NoteRepositoryImpl.NoteRepository.AddOrUpdateNote: the row store's insert conflict strategy and id assignment are not visible. The table after the insert is a parameter, so no upsert behaviour is claimed.
- NoteRepositoryImpl.NoteRepository.SaveImage: the file store's copy is not modelled. A returned path is taken to name a new file, although the store returns a path even when the content resolver gives no input stream.
- NoteEditor.NoteEditorViewModel.LoadNote: a throwing get-by-id escapes the launched coroutine. The model keeps the held note and emits nothing; the crash or handler that follows is not modelled.
- NoteRepositoryImpl.NoteRepository.DeleteNote: the row store's delete is taken to remove the row with the note's id. Its outcome (returns or throws) is a parameter.
- The row store (Room database and DAO), the file storage manager and file utilities, the dependency-injection modules, and the Compose screens are not part of this model.
- The pass-through use cases (get notes, get by id, delete, save image) only switch dispatcher and forward. The view-models take their outcomes as parameters.
- Coroutines, dispatchers and flow replay are not modelled. Each handler runs to completion before the next event. Effects form one appended sequence in the order they are sent. The list view-model sends each effect in its own coroutine, so in the app the order of effects and reload can vary.
- A reload after a list delete starts a new subscription while the earlier one may still be collecting. The model replaces the state with the new subscription's result only.
- Live streams are modelled by a finite prefix of emissions. A stream that never fails and never ends is one with no failure.
- The editor's `isSaving` is true only inside a handler. Because handlers are atomic, the model states only the final value.
- `isDeleting` and `error` in the editor state are never written by the view-model and are not modelled.
- Exception messages are opaque nullable strings; `localizedMessage` is taken to equal `message`.
- `Int` ids and `Long` timestamps are unbounded integers. Nothing here does arithmetic on them, and route parsing does not reject out-of-range integers.
- Reading the route argument back is modelled as an optional sign followed by decimal digits. The navigation library's route matching is not modelled.
- Whitespace follows the JVM's `Character.isWhitespace` and `Character.isSpaceChar` for the characters listed in `IsWhitespace`. Unicode normalisation is not modelled.
