/** The domain entity shared by every layer, and the shapes in which the
    layers report the outcome of a call that may throw. */
module Notes {

  datatype Option<+T> = None | Some(value: T)

  /** Kotlin's `x ?: default` on a nullable value. */
  function OrElse<T>(o: Option<T>, default: T): T
  {
    match o
    case Some(v) => v
    case None => default
  }

  /** A note. `id` 0 means "not yet persisted"; `title` and `imageUri` are
      nullable; the timestamps are milliseconds since the epoch.
      Kotlin's `Int` and `Long` are modelled as unbounded integers. */
  datatype Note = Note(
    id: int,
    title: Option<string>,
    content: string,
    imageUri: Option<string>,
    createdAt: int,
    updatedAt: int)

  /** What a handler learns from a thrown exception: whether it is an
      `IllegalArgumentException`, and its message (`localizedMessage` is the
      same string, since no class here overrides it). */
  datatype Thrown = Thrown(illegalArgument: bool, message: Option<string>)

  /** The outcome of calling a suspending operation: it returns a value or
      throws. Operations returning `Unit` use `Call<()>`. */
  datatype Call<+T> = Returns(value: T) | Throws(thrown: Thrown)

  /** A nullable string inside a Kotlin string template: null prints as "null". */
  function Template(s: Option<string>): string
  {
    OrElse(s, "null")
  }
}
