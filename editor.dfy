/** The editor screen's state holder
    (presentation/ui/note_editor/NoteEditorViewModel.kt). It holds one note and
    an `isSaving` flag, reacts to events, and emits one-shot effects. Each
    coroutine a handler launches is taken to run to completion before the
    next event; what the use cases and the clock answer is passed in. */
module NoteEditor {
  import opened Notes
  import opened NavGraph
  import AddOrUpdateNote
  import NoteMapper
  import NoteRepositoryImpl

  const NoNoteToDelete := "No note to delete"
  const InvalidNoteFallback := "Invalid note"
  const AttachFailedPrefix := "Failed to attach image: "
  const SaveFailedPrefix := "Save failed: "
  const DeleteFailedPrefix := "Delete failed: "

  /** NoteEditorEvent. The picked image's Uri is an opaque string here. */
  datatype EditorEvent =
    | Load(id: Option<int>)
    | TitleChanged(value: string)
    | ContentChanged(value: string)
    | AttachImageUri(uri: string)
    | ClearImage
    | Save
    | Delete

  /** NoteEditorEffect. */
  datatype EditorEffect = BackToList | ShowToast(text: string)

  /** A call the editor makes to a use case. */
  datatype UseCaseCall =
    | GetByIdCall(id: int)
    | SaveImageCall(uri: string)
    | AddOrUpdateCall(note: Note)
    | DeleteCall(note: Note)

  /** What the outside world answers while one event is handled: the clock,
      and what the save-image, add-or-update and delete use cases do. */
  datatype Env = Env(now: int, storedImage: Call<string>, saved: Call<()>, deleted: Call<()>)

  /** The part of NoteEditorState the view-model writes (`isDeleting` and
      `error` are never written). */
  datatype EditorState = EditorState(note: Note, isSaving: bool)

  /** What handling one event does: the new state, the effects emitted and
      the use-case calls made, in order. */
  datatype Reaction = Reaction(state: EditorState, effects: seq<EditorEffect>, calls: seq<UseCaseCall>)

  /** `noteIdArg`: the saved "noteId" argument with the sentinel -1 dropped. */
  function NoteIdArg(saved: Option<int>): (r: Option<int>)
    ensures r.None? <==> saved.None? || saved == Some(NewNoteSentinel)
    ensures r.Some? ==> r == saved
  {
    match saved
    case None => None
    case Some(raw) => DropSentinel(raw)
  }

  /** `emptyNote()`: each timestamp is its own read of the clock. */
  function EmptyNote(createdAt: int, updatedAt: int): (n: Note)
    ensures n.id == 0 && n.title.None? && n.content == "" && n.imageUri.None?
    ensures n.createdAt == createdAt && n.updatedAt == updatedAt
    ensures !AddOrUpdateNote.IsSaveable(n)
  {
    Note(0, None, "", None, createdAt, updatedAt)
  }

  /** The note held after `loadNote`, given the note held before it: the
      note found for the id argument, or an empty note when there is no
      argument or nothing is found. `found` is what get-by-id answers; it is
      consulted only when there is an id. A throwing lookup is not caught, so
      the coroutine ends and the held note stays. */
  function InitialNote(held: Note, saved: Option<int>, found: Call<Option<Note>>, clock1: int, clock2: int): (n: Note)
    ensures NoteIdArg(saved).Some? && found.Returns? && found.value.Some? ==> n == found.value.value
    ensures NoteIdArg(saved).Some? && found.Throws? ==> n == held
    ensures NoteIdArg(saved).None? || found == Returns(None) ==>
      n.id == 0 && n.title.None? && n.content == "" && n.imageUri.None?
      && n.createdAt == clock1 && n.updatedAt == clock2
  {
    match NoteIdArg(saved)
    case None => EmptyNote(clock1, clock2)
    case Some(_) =>
      match found
      case Throws(_) => held
      case Returns(result) => OrElse(result, EmptyNote(clock1, clock2))
  }

  /** The copy `saveNote` hands to the use case. */
  function Stamp(n: Note, now: int): (r: Note)
    ensures r.updatedAt == now
    ensures r.createdAt == now <== n.id == 0
    ensures n.id != 0 ==> r.createdAt == n.createdAt
    ensures r.(createdAt := n.createdAt, updatedAt := n.updatedAt) == n
  {
    n.(createdAt := if n.id == 0 then now else n.createdAt, updatedAt := now)
  }

  /** Stamping touches timestamps only, so it never changes whether the note
      passes the add-or-update rule. */
  lemma StampKeepsSaveability(n: Note, now: int)
    ensures AddOrUpdateNote.IsSaveable(Stamp(n, now)) <==> AddOrUpdateNote.IsSaveable(n)
  {
  }

  /** `attachImage(uri)`. */
  function AttachReaction(s: EditorState, uri: string, stored: Call<string>): (r: Reaction)
    ensures !r.state.isSaving
    ensures r.calls == [SaveImageCall(uri)]
    ensures stored.Returns? ==>
      r.state.note == s.note.(imageUri := Some(stored.value)) && r.effects == []
    ensures stored.Throws? ==>
      && r.state.note == s.note
      && r.effects == [ShowToast(AttachFailedPrefix + Template(stored.thrown.message))]
  {
    match stored
    case Returns(path) =>
      Reaction(EditorState(s.note.(imageUri := Some(path)), false), [], [SaveImageCall(uri)])
    case Throws(t) =>
      Reaction(EditorState(s.note, false), [ShowToast(AttachFailedPrefix + Template(t.message))], [SaveImageCall(uri)])
  }

  /** `saveNote()`: the held note, stamped, goes to the use case; the state's
      note is not replaced by the stamped copy. */
  function SaveReaction(s: EditorState, now: int, saved: Call<()>): (r: Reaction)
    ensures r.state == EditorState(s.note, false)
    ensures r.calls == [AddOrUpdateCall(Stamp(s.note, now))]
    ensures |r.effects| == 1
    ensures r.effects[0] == BackToList <==> saved.Returns?
    ensures saved.Throws? && saved.thrown.illegalArgument ==>
      r.effects[0] == ShowToast(OrElse(saved.thrown.message, InvalidNoteFallback))
    ensures saved.Throws? && !saved.thrown.illegalArgument ==>
      r.effects[0] == ShowToast(SaveFailedPrefix + Template(saved.thrown.message))
  {
    var effect :=
      match saved
      case Returns(_) => BackToList
      case Throws(t) =>
        if t.illegalArgument then ShowToast(OrElse(t.message, InvalidNoteFallback))
        else ShowToast(SaveFailedPrefix + Template(t.message));
    Reaction(EditorState(s.note, false), [effect], [AddOrUpdateCall(Stamp(s.note, now))])
  }

  /** `deleteNote()`: a note that was never persisted is not deleted. */
  function DeleteReaction(s: EditorState, deleted: Call<()>): (r: Reaction)
    ensures s.note.id == 0 ==> r == Reaction(s, [ShowToast(NoNoteToDelete)], [])
    ensures s.note.id != 0 ==>
      && r.state == EditorState(s.note, false)
      && r.calls == [DeleteCall(s.note)]
      && |r.effects| == 1
      && (r.effects[0] == BackToList <==> deleted.Returns?)
      && (deleted.Throws? ==> r.effects[0] == ShowToast(DeleteFailedPrefix + Template(deleted.thrown.message)))
  {
    if s.note.id == 0 then Reaction(s, [ShowToast(NoNoteToDelete)], [])
    else
      var effect :=
        match deleted
        case Returns(_) => BackToList
        case Throws(t) => ShowToast(DeleteFailedPrefix + Template(t.message));
      Reaction(EditorState(s.note, false), [effect], [DeleteCall(s.note)])
  }

  /** `onEvent(event)`. */
  function React(s: EditorState, e: EditorEvent, env: Env): (r: Reaction)
    ensures e.Load? ==> r == Reaction(s, [], [])
    ensures e.TitleChanged? ==>
      && r.state.note.title == Some(e.value) && r.state.note.(title := s.note.title) == s.note
      && r.state.isSaving == s.isSaving && r.effects == [] && r.calls == []
    ensures e.ContentChanged? ==>
      && r.state.note.content == e.value && r.state.note.(content := s.note.content) == s.note
      && r.state.isSaving == s.isSaving && r.effects == [] && r.calls == []
    ensures e.ClearImage? ==>
      && r.state.note.imageUri.None? && r.state.note.(imageUri := s.note.imageUri) == s.note
      && r.state.isSaving == s.isSaving && r.effects == [] && r.calls == []
    ensures e.AttachImageUri? ==> r == AttachReaction(s, e.uri, env.storedImage)
    ensures e.Save? ==> r == SaveReaction(s, env.now, env.saved)
    ensures e.Delete? ==> r == DeleteReaction(s, env.deleted)
  {
    match e
    case Load(_) => Reaction(s, [], [])
    case TitleChanged(v) => Reaction(s.(note := s.note.(title := Some(v))), [], [])
    case ContentChanged(v) => Reaction(s.(note := s.note.(content := v)), [], [])
    case AttachImageUri(uri) => AttachReaction(s, uri, env.storedImage)
    case ClearImage => Reaction(s.(note := s.note.(imageUri := None)), [], [])
    case Save => SaveReaction(s, env.now, env.saved)
    case Delete => DeleteReaction(s, env.deleted)
  }

  /** Whatever the outcome, an event that reached a use case leaves the
      editor not saving. */
  lemma NotSavingAfterUseCase(s: EditorState, e: EditorEvent, env: Env)
    requires React(s, e, env).calls != []
    ensures !React(s, e, env).state.isSaving
  {
  }

  /** Saving a note that fails the add-or-update rule, through the real use
      case, shows exactly the rule's message. */
  lemma SaveOfUnsaveableNote(s: EditorState, now: int)
    requires !AddOrUpdateNote.IsSaveable(s.note)
    ensures AddOrUpdateNote.Check(Stamp(s.note, now)).Reject?
    ensures SaveReaction(s, now, Throws(Thrown(true, Some(AddOrUpdateNote.InvalidNoteMessage)))).effects
      == [ShowToast(AddOrUpdateNote.InvalidNoteMessage)]
  {
  }

  class NoteEditorViewModel {
    var note: Note
    var isSaving: bool
    /** Every effect emitted so far, in order. */
    var effects: seq<EditorEffect>
    /** Every use-case call made so far, in order. */
    var calls: seq<UseCaseCall>

    function State(): EditorState
      reads this
    {
      EditorState(note, isSaving)
    }

    /** The state, effects and calls are those of `r` applied after the
        given earlier effects and calls. */
    predicate Reacted(effects0: seq<EditorEffect>, calls0: seq<UseCaseCall>, r: Reaction)
      reads this
    {
      State() == r.state && effects == effects0 + r.effects && calls == calls0 + r.calls
    }

    /** Construction, followed by `loadNote`. */
    constructor (saved: Option<int>, found: Call<Option<Note>>, clock1: int, clock2: int)
      ensures note == InitialNote(EmptyNote(clock1, clock2), saved, found, clock1, clock2)
      ensures !isSaving && effects == []
      ensures calls == (if NoteIdArg(saved).Some? then [GetByIdCall(NoteIdArg(saved).value)] else [])
    {
      note := EmptyNote(clock1, clock2);
      isSaving := false;
      effects := [];
      calls := [];
      new;
      LoadNote(saved, found, clock1, clock2);
    }

    /** `loadNote()`: the note found for the id argument, or an empty note. */
    method LoadNote(saved: Option<int>, found: Call<Option<Note>>, clock1: int, clock2: int)
      modifies this`note, this`calls
      ensures note == InitialNote(old(note), saved, found, clock1, clock2)
      ensures calls == old(calls) + (if NoteIdArg(saved).Some? then [GetByIdCall(NoteIdArg(saved).value)] else [])
    {
      var id := NoteIdArg(saved);
      if id.Some? {
        calls := calls + [GetByIdCall(id.value)];
        if found.Throws? {
          return;
        }
        if found.value.Some? {
          note := found.value.value;
          return;
        }
      }
      note := EmptyNote(clock1, clock2);
    }

    /** `updateNote(transform)`. */
    method UpdateNote(transform: Note -> Note)
      modifies this`note
      ensures note == transform(old(note))
    {
      note := transform(note);
    }

    /** `setLoading(isLoading)`. */
    method SetLoading(isLoading: bool)
      modifies this`isSaving
      ensures isSaving == isLoading
    {
      isSaving := isLoading;
    }

    method AttachImage(uri: string, stored: Call<string>)
      modifies this`note, this`isSaving, this`effects, this`calls
      ensures Reacted(old(effects), old(calls), AttachReaction(old(State()), uri, stored))
    {
      SetLoading(true);
      calls := calls + [SaveImageCall(uri)];
      match stored {
        case Returns(path) =>
          UpdateNote((n: Note) => n.(imageUri := Some(path)));
        case Throws(t) =>
          effects := effects + [ShowToast(AttachFailedPrefix + Template(t.message))];
      }
      SetLoading(false);
    }

    method SaveNote(now: int, saved: Call<()>)
      modifies this`isSaving, this`effects, this`calls
      ensures note == old(note)
      ensures Reacted(old(effects), old(calls), SaveReaction(old(State()), now, saved))
    {
      var held := note;
      SetLoading(true);
      var toSave := held.(createdAt := if held.id == 0 then now else held.createdAt, updatedAt := now);
      calls := calls + [AddOrUpdateCall(toSave)];
      match saved {
        case Returns(_) =>
          effects := effects + [BackToList];
        case Throws(t) =>
          if t.illegalArgument {
            effects := effects + [ShowToast(OrElse(t.message, InvalidNoteFallback))];
          } else {
            effects := effects + [ShowToast(SaveFailedPrefix + Template(t.message))];
          }
      }
      SetLoading(false);
    }

    /** `saveNote()` with the real add-or-update use case over the repository:
        a note failing the rule never reaches the repository and shows the
        rule's message. */
    method SaveThrough(repo: NoteRepositoryImpl.NoteRepository, now: int, inserted: Call<map<int, NoteMapper.NoteEntity>>)
      returns (outcome: Call<()>)
      requires repo.Valid()
      requires inserted.Returns? ==> NoteRepositoryImpl.KeyedById(inserted.value)
      modifies this`isSaving, this`effects, this`calls, repo`rows, repo`calls
      ensures repo.Valid()
      ensures note == old(note)
      ensures Reacted(old(effects), old(calls), SaveReaction(old(State()), now, outcome))
      ensures !AddOrUpdateNote.IsSaveable(old(note)) ==>
        && effects == old(effects) + [ShowToast(AddOrUpdateNote.InvalidNoteMessage)]
        && repo.calls == old(repo.calls) && repo.rows == old(repo.rows)
      ensures AddOrUpdateNote.IsSaveable(old(note)) ==>
        && repo.calls == old(repo.calls) + [NoteRepositoryImpl.InsertRow(NoteMapper.ToEntity(Stamp(old(note), now)))]
        && repo.rows == (if inserted.Returns? then inserted.value else old(repo.rows))
        && outcome == (if inserted.Returns? then Returns(()) else Throws(inserted.thrown))
        && (inserted.Returns? ==> effects == old(effects) + [BackToList])
    {
      StampKeepsSaveability(note, now);
      outcome := AddOrUpdateNote.Invoke(repo, Stamp(note, now), inserted);
      SaveNote(now, outcome);
    }

    method DeleteNote(deleted: Call<()>)
      modifies this`isSaving, this`effects, this`calls
      ensures note == old(note)
      ensures Reacted(old(effects), old(calls), DeleteReaction(old(State()), deleted))
    {
      var held := note;
      if held.id == 0 {
        effects := effects + [ShowToast(NoNoteToDelete)];
        return;
      }
      SetLoading(true);
      calls := calls + [DeleteCall(held)];
      match deleted {
        case Returns(_) =>
          effects := effects + [BackToList];
        case Throws(t) =>
          effects := effects + [ShowToast(DeleteFailedPrefix + Template(t.message))];
      }
      SetLoading(false);
    }

    method OnEvent(e: EditorEvent, env: Env)
      modifies this`note, this`isSaving, this`effects, this`calls
      ensures Reacted(old(effects), old(calls), React(old(State()), e, env))
    {
      match e {
        case Load(_) =>
        case TitleChanged(v) => UpdateNote((n: Note) => n.(title := Some(v)));
        case ContentChanged(v) => UpdateNote((n: Note) => n.(content := v));
        case AttachImageUri(uri) => AttachImage(uri, env.storedImage);
        case ClearImage => UpdateNote((n: Note) => n.(imageUri := None));
        case Save => SaveNote(env.now, env.saved);
        case Delete => DeleteNote(env.deleted);
      }
    }
  }
}
