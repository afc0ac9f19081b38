/** The one validation rule of the domain layer
    (domain/use_case/AddOrUpdateNoteUseCase.kt): a note may be written only if
    it has a title or content that is not blank. */
module AddOrUpdateNote {
  import opened Notes
  import opened NoteMapper
  import opened NoteRepositoryImpl

  const InvalidNoteMessage := "Note must have at least a title or content"

  /** Kotlin's `Char.isWhitespace()` on the JVM: `Character.isWhitespace` or
      `Character.isSpaceChar`, i.e. the control whitespace characters and
      every space, line and paragraph separator. */
  predicate IsWhitespace(c: char)
  {
    || c == '\t' || c == '\n' || c == '\U{B}' || c == '\U{C}' || c == '\r'
    || '\U{1C}' <= c <= '\U{1F}'
    || c == ' ' || c == '\U{A0}' || c == '\U{1680}'
    || '\U{2000}' <= c <= '\U{200A}'
    || c == '\U{2028}' || c == '\U{2029}' || c == '\U{202F}' || c == '\U{205F}' || c == '\U{3000}'
  }

  /** `isBlank()`: empty, or whitespace only. */
  predicate IsBlank(s: string)
  {
    forall i :: 0 <= i < |s| ==> IsWhitespace(s[i])
  }

  /** `isNullOrBlank()`. */
  predicate IsNullOrBlank(s: Option<string>)
  {
    s.None? || IsBlank(s.value)
  }

  /** The rule the use case enforces. */
  predicate IsSaveable(n: Note)
  {
    !(IsNullOrBlank(n.title) && IsBlank(n.content))
  }

  /** The outcome of the check: the note to hand on, or the rejection message. */
  datatype Checked = Forward(note: Note) | Reject(message: string)

  /** The check of `invoke`, before anything reaches the repository. */
  function Check(n: Note): (r: Checked)
    ensures r.Reject? <==> IsNullOrBlank(n.title) && IsBlank(n.content)
    ensures r.Reject? ==> r.message == InvalidNoteMessage
    ensures r.Forward? ==> r.note == n
  {
    if IsNullOrBlank(n.title) && IsBlank(n.content) then Reject(InvalidNoteMessage) else Forward(n)
  }

  /** A blank string is exactly one without a non-whitespace character. */
  lemma BlankIffNoVisibleChar(s: string)
    ensures IsBlank(s) <==> !exists c :: c in s && !IsWhitespace(c)
  {
  }

  /** A note passes the rule exactly when its title or its content has a
      character that is not whitespace. */
  lemma SaveableIffVisibleChar(n: Note)
    ensures IsSaveable(n) <==>
      || (n.title.Some? && exists i :: 0 <= i < |n.title.value| && !IsWhitespace(n.title.value[i]))
      || (exists i :: 0 <= i < |n.content| && !IsWhitespace(n.content[i]))
  {
  }

  /** A non-blank title is enough, whatever the content (even empty). */
  lemma TitleAloneIsEnough(n: Note)
    requires n.title.Some? && !IsBlank(n.title.value)
    ensures Check(n) == Forward(n)
  {
  }

  /** Non-blank content is enough, even with a null title. */
  lemma ContentAloneIsEnough(n: Note)
    requires !IsBlank(n.content)
    ensures Check(n) == Forward(n)
  {
  }

  /** Whitespace-only content with a null or whitespace-only title is rejected. */
  lemma BlankNoteRejected(n: Note)
    requires n.title.None? || IsBlank(n.title.value)
    requires forall i :: 0 <= i < |n.content| ==> n.content[i] == ' '
    ensures Check(n) == Reject(InvalidNoteMessage)
  {
  }

  /** Whether a note passes depends on its title and content only, never on
      its id, image or timestamps. */
  lemma CheckIgnoresMetadata(a: Note, b: Note)
    requires a.title == b.title && a.content == b.content
    ensures Check(a).Forward? <==> Check(b).Forward?
  {
  }

  /** `invoke(note)`: throws `IllegalArgumentException(InvalidNoteMessage)`
      without calling the repository when the check rejects; otherwise hands
      the unmodified note to the repository exactly once and returns what
      the repository returns. */
  method Invoke(repo: NoteRepository, n: Note, inserted: Call<map<int, NoteEntity>>) returns (r: Call<()>)
    requires repo.Valid()
    requires inserted.Returns? ==> KeyedById(inserted.value)
    modifies repo`rows, repo`calls
    ensures repo.Valid()
    ensures !IsSaveable(n) ==>
      && r == Throws(Thrown(true, Some(InvalidNoteMessage)))
      && repo.calls == old(repo.calls) && repo.rows == old(repo.rows)
    ensures IsSaveable(n) ==>
      && repo.calls == old(repo.calls) + [InsertRow(ToEntity(n))]
      && repo.rows == (if inserted.Returns? then inserted.value else old(repo.rows))
      && r == (if inserted.Returns? then Returns(()) else Throws(inserted.thrown))
  {
    match Check(n) {
      case Reject(message) =>
        r := Throws(Thrown(true, Some(message)));
      case Forward(note) =>
        r := repo.AddOrUpdateNote(note, inserted);
    }
  }
}
