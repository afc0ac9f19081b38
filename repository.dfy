/** The repository (data/repo/NoteRepositoryImpl.kt) over an abstract row
    store keyed by id and an abstract set of image file paths. The store and
    the file manager are not part of this model: what they answer is passed
    in, and every call the repository issues to them is appended to a log. */
module NoteRepositoryImpl {
  import opened Notes
  import opened NoteMapper

  /** A call the repository issues to the row store or the file store. */
  datatype StoreCall =
    | InsertRow(entity: NoteEntity)
    | DeleteRow(entity: NoteEntity)
    | SaveFile(uri: string)
    | DeleteFile(path: string)

  /** One emission of the store's live list, mapped row by row through
      ToDomain (the body of `getAllNotes`' `map`). */
  function AllNotes(rows: seq<NoteEntity>): (notes: seq<Note>)
    ensures |notes| == |rows|
    ensures forall i :: 0 <= i < |rows| ==> ToEntity(notes[i]) == rows[i]
  {
    if rows == [] then [] else [ToDomain(rows[0])] + AllNotes(rows[1..])
  }

  /** `getAllNotes()`: every emission of the store's live list, mapped. */
  function AllNotesStream(emissions: seq<seq<NoteEntity>>): (stream: seq<seq<Note>>)
    ensures |stream| == |emissions|
    ensures forall k :: 0 <= k < |emissions| ==> stream[k] == AllNotes(emissions[k])
  {
    if emissions == [] then [] else [AllNotes(emissions[0])] + AllNotesStream(emissions[1..])
  }

  /** The table is keyed by the primary key `id`: every row is stored under
      its own id. */
  predicate KeyedById(table: map<int, NoteEntity>)
  {
    forall k | k in table :: table[k].id == k
  }

  class NoteRepository {
    /** The table, by primary key. */
    var rows: map<int, NoteEntity>
    /** The image files that exist. */
    var files: set<string>
    /** Every call issued to the row store and the file store, in order. */
    var calls: seq<StoreCall>

    /** The class invariant: the table is keyed by id. */
    predicate Valid()
      reads this
    {
      KeyedById(rows)
    }

    constructor (rows0: map<int, NoteEntity>, files0: set<string>)
      requires KeyedById(rows0)
      ensures Valid()
      ensures rows == rows0 && files == files0 && calls == []
    {
      rows, files, calls := rows0, files0, [];
    }

    /** `getNoteById`: the stored row mapped to a note, or null. */
    function GetNoteById(id: int): (r: Option<Note>)
      reads this
      requires Valid()
      ensures r.Some? <==> exists k | k in rows :: rows[k].id == id
      ensures r.Some? ==> r.value.id == id && id in rows && ToEntity(r.value) == rows[id]
    {
      if id in rows then Some(ToDomain(rows[id])) else None
    }

    /** `addOrUpdateNote`: hands ToEntity(note) to the store's insert. What the
        insert does to the table (replace or abort on a clash, id assignment)
        is the store's business: `inserted` is the table it leaves, or what
        it throws. */
    method AddOrUpdateNote(note: Note, inserted: Call<map<int, NoteEntity>>) returns (r: Call<()>)
      requires Valid()
      requires inserted.Returns? ==> KeyedById(inserted.value)
      modifies this`rows, this`calls
      ensures Valid()
      ensures calls == old(calls) + [InsertRow(ToEntity(note))]
      ensures rows == (if inserted.Returns? then inserted.value else old(rows))
      ensures r == (if inserted.Returns? then Returns(()) else Throws(inserted.thrown))
    {
      calls := calls + [InsertRow(ToEntity(note))];
      match inserted {
        case Returns(table) =>
          rows := table;
          r := Returns(());
        case Throws(t) =>
          r := Throws(t);
      }
    }

    /** `deleteNote`: removes the row with the note's id, then (only when the
        row delete did not throw) deletes the note's image file if it has one.
        `rowDelete` is whether the row store's delete returned or threw. */
    method DeleteNote(note: Note, rowDelete: Call<()>) returns (r: Call<()>)
      requires Valid()
      modifies this`rows, this`files, this`calls
      ensures Valid()
      ensures r == rowDelete
      ensures rowDelete.Throws? ==>
        rows == old(rows) && files == old(files) && calls == old(calls) + [DeleteRow(ToEntity(note))]
      ensures rowDelete.Returns? ==>
        && rows == old(rows) - {note.id}
        && (forall k | k in rows :: rows[k].id != note.id)
        && files == (if note.imageUri.Some? then old(files) - {note.imageUri.value} else old(files))
        && calls == old(calls) + [DeleteRow(ToEntity(note))]
                   + (if note.imageUri.Some? then [DeleteFile(note.imageUri.value)] else [])
    {
      calls := calls + [DeleteRow(ToEntity(note))];
      if rowDelete.Throws? {
        return rowDelete;
      }
      rows := rows - {note.id};
      match note.imageUri {
        case Some(path) =>
          calls := calls + [DeleteFile(path)];
          files := files - {path};
        case None =>
      }
      r := rowDelete;
    }

    /** `saveImage`: returns exactly the path the file store returns (or
        rethrows what it throws); a returned path names an existing file. */
    method SaveImage(uri: string, stored: Call<string>) returns (r: Call<string>)
      modifies this`files, this`calls
      ensures r == stored
      ensures calls == old(calls) + [SaveFile(uri)]
      ensures files == (if stored.Returns? then old(files) + {stored.value} else old(files))
    {
      calls := calls + [SaveFile(uri)];
      if stored.Returns? {
        files := files + {stored.value};
      }
      r := stored;
    }
  }
}
