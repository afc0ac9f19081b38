/** The list screen's state holder
    (presentation/ui/note_list/NotesListViewModel.kt). Loading subscribes to
    the live list of notes: a subscription is modelled by the lists it emits,
    in order, and the failure that ends it, if any. Each handler is taken to
    run to completion; effects are appended in the order they are sent. */
module NotesList {
  import opened Notes
  import NoteMapper
  import NoteRepositoryImpl

  const UnknownError := "Unknown error"
  const NoteNotFound := "Note not found"
  const NoteDeleted := "Note deleted successfully"
  const DeleteFailedPrefix := "Failed to delete note: "

  /** NoteListState. */
  datatype ListState = ListState(isLoading: bool, notes: seq<Note>, error: Option<string>)

  /** The state before anything has loaded. */
  const InitialState := ListState(true, [], None)

  /** NoteListEvent. */
  datatype ListEvent = Load | Open(id: int) | AddNew | LongClick(id: int) | ConfirmDelete(id: int)

  /** NoteListEffect. */
  datatype ListEffect = NavigateToEditor(id: Option<int>) | ShowToast(text: string) | ShowOptionsDialog(noteId: int)

  /** One subscription to the live list: what it emits, then how it ends. */
  datatype Emissions = Emissions(lists: seq<seq<Note>>, failure: Option<Thrown>)

  /** What the outside world answers while one event is handled: the
      emissions of the subscription a load starts, and whether the delete use
      case returns or throws. */
  datatype ListEnv = ListEnv(stream: Emissions, deleted: Call<()>)

  /** What handling one event does: the new state, the effects sent and the
      notes handed to the delete use case. */
  datatype ListReaction = ListReaction(state: ListState, effects: seq<ListEffect>, deletes: seq<Note>)

  function Last<T>(xs: seq<T>): T
    requires xs != []
  {
    xs[|xs| - 1]
  }

  /** The lists `distinctUntilChanged` lets through, given the last list
      seen before (if any). */
  function Observed(previous: Option<seq<Note>>, lists: seq<seq<Note>>): (passed: seq<seq<Note>>)
    ensures |passed| <= |lists|
    ensures forall i :: 0 <= i < |passed| ==> passed[i] in lists
    ensures forall i :: 0 <= i < |passed| - 1 ==> passed[i] != passed[i + 1]
    ensures passed != [] && previous.Some? ==> passed[0] != previous.value
    ensures lists != [] && previous.None? ==> passed != [] && passed[0] == lists[0]
    decreases |lists|
  {
    if lists == [] then []
    else
      var rest := Observed(Some(lists[0]), lists[1..]);
      if previous == Some(lists[0]) then rest else [lists[0]] + rest
  }

  /** The `collect` over the de-duplicated lists: each list that differs from
      the previous one becomes the shown list, with loading and error
      cleared; a repeated list changes nothing. */
  function Collect(s: ListState, previous: Option<seq<Note>>, lists: seq<seq<Note>>): (r: ListState)
    ensures lists == [] ==> r == s
    ensures r == s || (!r.isLoading && r.error.None? && r.notes in lists)
    ensures !s.isLoading && s.error.None? ==> !r.isLoading && r.error.None?
    ensures previous.None? && lists != [] ==> !r.isLoading && r.error.None?
    decreases |lists|
  {
    if lists == [] then s
    else
      var next := if previous == Some(lists[0]) then s else ListState(false, lists[0], None);
      Collect(next, Some(lists[0]), lists[1..])
  }

  /** `loadNotes()` run over one subscription: `onStart` marks loading and
      clears the error, the lists are collected, and a failure ends it with
      loading cleared and its message (or "Unknown error") as the error. */
  function Loaded(s: ListState, stream: Emissions): (r: ListState)
    ensures r.notes == s.notes || r.notes in stream.lists
    ensures stream.failure.None? ==> r.error.None? && (r.isLoading <==> stream.lists == [])
    ensures stream.failure.Some? ==>
      !r.isLoading && r.error == Some(OrElse(stream.failure.value.message, UnknownError))
  {
    var collected := Collect(s.(isLoading := true, error := None), None, stream.lists);
    match stream.failure
    case None => collected
    case Some(t) => collected.(isLoading := false, error := Some(OrElse(t.message, UnknownError)))
  }

  /** The shown state is fixed by the last list that got through. */
  lemma {:induction false} CollectShowsLastObserved(s: ListState, previous: Option<seq<Note>>, lists: seq<seq<Note>>)
    ensures Observed(previous, lists) == [] ==> Collect(s, previous, lists) == s
    ensures Observed(previous, lists) != [] ==>
      Collect(s, previous, lists) == ListState(false, Last(Observed(previous, lists)), None)
    decreases |lists|
  {
    if lists != [] {
      var next := if previous == Some(lists[0]) then s else ListState(false, lists[0], None);
      CollectShowsLastObserved(next, Some(lists[0]), lists[1..]);
    }
  }

  /** The last list to get through is the last list emitted. */
  lemma {:induction false} ObservedEndsWithLast(previous: Option<seq<Note>>, lists: seq<seq<Note>>)
    requires Observed(previous, lists) != []
    ensures Last(Observed(previous, lists)) == Last(lists)
    decreases |lists|
  {
    var rest := Observed(Some(lists[0]), lists[1..]);
    if rest != [] {
      ObservedEndsWithLast(Some(lists[0]), lists[1..]);
    } else if lists[1..] != [] {
      // Nothing after the first list got through, so every later list repeats it.
      RepeatsOnly(lists[0], lists[1..]);
    }
  }

  /** When nothing gets through, every list repeats the previous one. */
  lemma {:induction false} RepeatsOnly(previous: seq<Note>, lists: seq<seq<Note>>)
    requires Observed(Some(previous), lists) == []
    ensures forall i :: 0 <= i < |lists| ==> lists[i] == previous
  {
    if lists != [] {
      assert lists[0] == previous;
      RepeatsOnly(previous, lists[1..]);
      forall i | 1 <= i < |lists| ensures lists[i] == previous {
        assert lists[i] == lists[1..][i - 1];
      }
    }
  }

  /** A subscription that emits at least once and does not fail shows its
      last list, not loading and without error. */
  lemma LoadShowsLastList(s: ListState, lists: seq<seq<Note>>)
    requires lists != []
    ensures Loaded(s, Emissions(lists, None)) == ListState(false, Last(lists), None)
  {
    CollectShowsLastObserved(s.(isLoading := true, error := None), None, lists);
    ObservedEndsWithLast(None, lists);
  }

  /** A subscription that fails shows the error, stops loading, and keeps
      the last list that got through (or the notes shown before). */
  lemma FailureKeepsNotes(s: ListState, lists: seq<seq<Note>>, t: Thrown)
    ensures Loaded(s, Emissions(lists, Some(t))) ==
      ListState(false, (if lists == [] then s.notes else Last(lists)), Some(OrElse(t.message, UnknownError)))
  {
    var start := s.(isLoading := true, error := None);
    CollectShowsLastObserved(start, None, lists);
    if lists != [] {
      ObservedEndsWithLast(None, lists);
    }
  }

  /** Collecting runs left to right: a split stream is collected in two goes. */
  lemma {:induction false} CollectAppend(s: ListState, previous: Option<seq<Note>>, xs: seq<seq<Note>>, ys: seq<seq<Note>>)
    ensures Collect(s, previous, xs + ys) ==
      Collect(Collect(s, previous, xs), if xs == [] then previous else Some(Last(xs)), ys)
    decreases |xs|
  {
    if xs != [] {
      var next := if previous == Some(xs[0]) then s else ListState(false, xs[0], None);
      assert (xs + ys)[0] == xs[0] && (xs + ys)[1..] == xs[1..] + ys;
      CollectAppend(next, Some(xs[0]), xs[1..], ys);
      if xs[1..] != [] {
        assert Last(xs[1..]) == Last(xs);
      }
    } else {
      assert xs + ys == ys;
    }
  }

  /** distinct-until-changed, one emission at a time: a new emission passes
      exactly when it differs from the one before it (or from the list seen
      before the subscription, when it is the first), and what passed
      before it is kept, in order. */
  lemma {:induction false} ObservedSnoc(previous: Option<seq<Note>>, xs: seq<seq<Note>>, y: seq<Note>)
    ensures Observed(previous, xs + [y]) ==
      Observed(previous, xs) + (if (if xs == [] then previous else Some(Last(xs))) == Some(y) then [] else [y])
    decreases |xs|
  {
    if xs == [] {
      assert [y][1..] == [];
      assert xs + [y] == [y];
    } else {
      var z, more := xs[0], xs[1..];
      assert (xs + [y])[0] == z && (xs + [y])[1..] == more + [y];
      var tail := if Some(Last(xs)) == Some(y) then [] else [y];
      ObservedSnoc(Some(z), more, y);
      if more != [] {
        assert Last(more) == Last(xs);
      }
      var before := Observed(Some(z), more);
      assert Observed(Some(z), more + [y]) == before + tail;
      if previous != Some(z) {
        assert [z] + (before + tail) == ([z] + before) + tail;
      }
    }
  }

  /** An emission equal to the one before it causes no state change. */
  lemma RepeatedEmissionIgnored(s: ListState, previous: Option<seq<Note>>, xs: seq<seq<Note>>, x: seq<Note>)
    ensures Collect(s, previous, xs + [x, x]) == Collect(s, previous, xs + [x])
  {
    CollectAppend(s, previous, xs + [x], [x]);
    assert xs + [x, x] == (xs + [x]) + [x];
  }

  /** Until the first subscription emits, the screen shows the initial
      state: loading, no notes, no error. */
  lemma NothingEmittedYet(s: ListState)
    ensures Loaded(s, Emissions([], None)) == s.(isLoading := true, error := None)
    ensures Loaded(InitialState, Emissions([], None)) == ListState(true, [], None)
  {
  }

  /** Emitting the empty list twice lets only one of them through. */
  lemma EmptyTwiceObservedOnce()
    ensures Observed(None, [[], []]) == [[]]
  {
    var empty: seq<Note> := [];
    assert [empty, empty][1..] == [empty];
  }

  /** Loading over the repository's live list: a subscription that emits at
      least one table and does not fail ends showing the last table, mapped
      row by row. */
  lemma LoadFromRepository(s: ListState, tables: seq<seq<NoteMapper.NoteEntity>>)
    requires tables != []
    ensures Loaded(s, Emissions(NoteRepositoryImpl.AllNotesStream(tables), None)) ==
      ListState(false, NoteRepositoryImpl.AllNotes(Last(tables)), None)
  {
    LoadShowsLastList(s, NoteRepositoryImpl.AllNotesStream(tables));
  }

  /** `firstOrNull { it.id == id }`. */
  function FirstWithId(notes: seq<Note>, id: int): (r: Option<Note>)
    ensures r.None? <==> forall i :: 0 <= i < |notes| ==> notes[i].id != id
    ensures r.Some? ==>
      exists k :: (0 <= k < |notes| && notes[k] == r.value && r.value.id == id
                   && forall j :: 0 <= j < k ==> notes[j].id != id)
  {
    if notes == [] then None
    else if notes[0].id == id then Some(notes[0])
    else
      var r := FirstWithId(notes[1..], id);
      if r.Some? then
        var k :| (0 <= k < |notes[1..]| && notes[1..][k] == r.value && r.value.id == id
                  && forall j :: 0 <= j < k ==> notes[1..][j].id != id);
        assert notes[k + 1] == r.value;
        r
      else
        assert forall i :: 1 <= i < |notes| ==> notes[i] == notes[1..][i - 1];
        r
  }

  /** `delete(id)`: look the note up in the shown list; if it is there, hand
      it to the delete use case, then report and reload or report the
      failure. */
  function DeleteReaction(s: ListState, id: int, deleted: Call<()>, reload: Emissions): (r: ListReaction)
    ensures FirstWithId(s.notes, id).None? ==> r == ListReaction(s, [ShowToast(NoteNotFound)], [])
    ensures FirstWithId(s.notes, id).Some? ==> r.deletes == [FirstWithId(s.notes, id).value] && |r.effects| == 1
    ensures FirstWithId(s.notes, id).Some? && deleted.Returns? ==>
      r.state == Loaded(s, reload) && r.effects == [ShowToast(NoteDeleted)]
    ensures FirstWithId(s.notes, id).Some? && deleted.Throws? ==>
      r.state == s && r.effects == [ShowToast(DeleteFailedPrefix + Template(deleted.thrown.message))]
  {
    match FirstWithId(s.notes, id)
    case None => ListReaction(s, [ShowToast(NoteNotFound)], [])
    case Some(note) =>
      match deleted
      case Returns(_) => ListReaction(Loaded(s, reload), [ShowToast(NoteDeleted)], [note])
      case Throws(t) => ListReaction(s, [ShowToast(DeleteFailedPrefix + Template(t.message))], [note])
  }

  /** `onEvent(event)`. */
  function React(s: ListState, e: ListEvent, env: ListEnv): (r: ListReaction)
    ensures e.Load? ==> r == ListReaction(Loaded(s, env.stream), [], [])
    ensures e.Open? ==> r == ListReaction(s, [NavigateToEditor(Some(e.id))], [])
    ensures e.AddNew? ==> r == ListReaction(s, [NavigateToEditor(None)], [])
    ensures e.LongClick? ==> r == ListReaction(s, [ShowOptionsDialog(e.id)], [])
    ensures e.ConfirmDelete? ==> r == DeleteReaction(s, e.id, env.deleted, env.stream)
  {
    match e
    case Load => ListReaction(Loaded(s, env.stream), [], [])
    case Open(id) => ListReaction(s, [NavigateToEditor(Some(id))], [])
    case AddNew => ListReaction(s, [NavigateToEditor(None)], [])
    case LongClick(id) => ListReaction(s, [ShowOptionsDialog(id)], [])
    case ConfirmDelete(id) => DeleteReaction(s, id, env.deleted, env.stream)
  }

  class NotesListViewModel {
    var state: ListState
    /** Every effect sent so far, in order. */
    var effects: seq<ListEffect>
    /** Every note handed to the delete use case so far, in order. */
    var deletes: seq<Note>

    predicate Reacted(effects0: seq<ListEffect>, deletes0: seq<Note>, r: ListReaction)
      reads this
    {
      state == r.state && effects == effects0 + r.effects && deletes == deletes0 + r.deletes
    }

    /** Construction, followed by the first `loadNotes()`. */
    constructor (stream: Emissions)
      ensures state == Loaded(InitialState, stream)
      ensures effects == [] && deletes == []
    {
      state := InitialState;
      effects := [];
      deletes := [];
      new;
      LoadNotes(stream);
    }

    /** `loadNotes()`: the onStart / distinctUntilChanged / catch / collect
        pipeline over one subscription. */
    method LoadNotes(stream: Emissions)
      modifies this`state
      ensures state == Loaded(old(state), stream)
    {
      state := state.(isLoading := true, error := None);
      ghost var start := state;
      var lists := stream.lists;
      var previous: Option<seq<Note>> := None;
      var i := 0;
      while i < |lists|
        invariant 0 <= i <= |lists|
        invariant previous == (if i == 0 then None else Some(lists[i - 1]))
        invariant Collect(state, previous, lists[i..]) == Collect(start, None, lists)
      {
        var notes := lists[i];
        assert lists[i..][0] == notes && lists[i..][1..] == lists[i + 1..];
        if previous != Some(notes) {
          state := state.(isLoading := false, notes := notes, error := None);
        }
        previous := Some(notes);
        i := i + 1;
      }
      match stream.failure {
        case Some(t) =>
          state := state.(isLoading := false, error := Some(OrElse(t.message, UnknownError)));
        case None =>
      }
    }

    /** `sendEffect(effect)`. */
    method SendEffect(effect: ListEffect)
      modifies this`effects
      ensures effects == old(effects) + [effect]
    {
      effects := effects + [effect];
    }

    /** `navigateToEditor(id)`. */
    method OpenEditor(id: Option<int>)
      modifies this`effects
      ensures effects == old(effects) + [NavigateToEditor(id)]
    {
      SendEffect(NavigateToEditor(id));
    }

    /** `showOptions(id)`. */
    method ShowOptions(id: int)
      modifies this`effects
      ensures effects == old(effects) + [ShowOptionsDialog(id)]
    {
      SendEffect(ShowOptionsDialog(id));
    }

    /** `delete(id)`. */
    method Delete(id: int, deleted: Call<()>, reload: Emissions)
      modifies this`state, this`effects, this`deletes
      ensures Reacted(old(effects), old(deletes), DeleteReaction(old(state), id, deleted, reload))
    {
      var found := FirstWithId(state.notes, id);
      if found.None? {
        SendEffect(ShowToast(NoteNotFound));
        return;
      }
      deletes := deletes + [found.value];
      match deleted {
        case Returns(_) =>
          SendEffect(ShowToast(NoteDeleted));
          LoadNotes(reload);
        case Throws(t) =>
          SendEffect(ShowToast(DeleteFailedPrefix + Template(t.message)));
      }
    }

    method OnEvent(e: ListEvent, env: ListEnv)
      modifies this`state, this`effects, this`deletes
      ensures Reacted(old(effects), old(deletes), React(old(state), e, env))
    {
      match e {
        case Load => LoadNotes(env.stream);
        case Open(id) => OpenEditor(Some(id));
        case AddNew => OpenEditor(None);
        case LongClick(id) => ShowOptions(id);
        case ConfirmDelete(id) => Delete(id, env.deleted, env.stream);
      }
    }
  }
}
