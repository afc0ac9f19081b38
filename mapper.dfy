/** The field-for-field conversion between the persisted row shape and the
    domain note (data/mapper/NoteMapper.kt). The row class itself is not part
    of this model; its fields are the ones the mapper reads and writes. */
module NoteMapper {
  import opened Notes

  /** A row of the notes table. */
  datatype NoteEntity = NoteEntity(
    id: int,
    title: Option<string>,
    content: string,
    imageUri: Option<string>,
    createdAt: int,
    updatedAt: int)

  /** `Note.toEntity()`: every field copied unchanged, null staying null. */
  function ToEntity(n: Note): (e: NoteEntity)
    ensures e.id == n.id && e.content == n.content
    ensures e.createdAt == n.createdAt && e.updatedAt == n.updatedAt
    ensures e.title == n.title && e.imageUri == n.imageUri
  {
    NoteEntity(n.id, n.title, n.content, n.imageUri, n.createdAt, n.updatedAt)
  }

  /** `NoteEntity.toDomain()`: the inverse of ToEntity. */
  function ToDomain(e: NoteEntity): (n: Note)
    ensures ToEntity(n) == e
  {
    Note(e.id, e.title, e.content, e.imageUri, e.createdAt, e.updatedAt)
  }

  /** The other round trip: a note survives being stored and read back. */
  lemma DomainRoundTrip(n: Note)
    ensures ToDomain(ToEntity(n)) == n
  {
  }
}
