/** The editor destination's route (presentation/ui/nav_graph/NotesNavGraph.kt):
    an optional note id travels as a decimal route argument, with -1 standing
    for "no id, create a new note". */
module NavGraph {
  import opened Notes

  const EditorRoutePrefix := "note_editor?noteId="
  const NewNoteSentinel := -1

  predicate IsDigit(c: char)
  {
    '0' <= c <= '9'
  }

  function DigitChar(d: nat): (c: char)
    requires d < 10
    ensures IsDigit(c)
  {
    ['0', '1', '2', '3', '4', '5', '6', '7', '8', '9'][d]
  }

  function DigitValue(c: char): (d: nat)
    requires IsDigit(c)
    ensures d < 10
  {
    (c as int - '0' as int) as nat
  }

  lemma DigitValueOfChar(d: nat)
    requires d < 10
    ensures DigitValue(DigitChar(d)) == d
  {
  }

  predicate AllDigits(s: string)
  {
    forall i :: 0 <= i < |s| ==> IsDigit(s[i])
  }

  /** The decimal digits of a natural number, without leading zeros. */
  function Digits(n: nat): (s: string)
    ensures |s| > 0 && AllDigits(s)
    ensures n == 0 ==> s == "0"
    ensures n > 0 ==> s[0] != '0'
  {
    if n < 10 then [DigitChar(n)] else Digits(n / 10) + [DigitChar(n % 10)]
  }

  /** Kotlin's `Int.toString()`: a minus sign for negatives, then the digits. */
  function DecimalString(i: int): (s: string)
    ensures |s| > 0
    ensures s[0] == '-' <==> i < 0
    ensures i < 0 ==> |s| > 1 && AllDigits(s[1..]) && s[1] != '0'
    ensures i >= 0 ==> AllDigits(s)
    ensures i == 0 ==> s == "0"
    ensures i > 0 ==> s[0] != '0'
  {
    if i < 0 then "-" + Digits(-i) else Digits(i)
  }

  /** The value of a string of decimal digits. */
  function DigitsValue(s: string): nat
    requires AllDigits(s)
  {
    if s == [] then 0 else DigitsValue(s[..|s| - 1]) * 10 + DigitValue(s[|s| - 1])
  }

  /** How the route's `IntType` argument is read back, restricted to an
      optional sign followed by at least one ASCII decimal digit; anything
      else is not read as an integer. */
  function ParseDecimal(s: string): (r: Option<int>)
    ensures r.Some? <==>
      || (|s| > 0 && AllDigits(s))
      || (|s| > 1 && (s[0] == '-' || s[0] == '+') && AllDigits(s[1..]))
    ensures r.Some? && s[0] == '-' ==> r.value <= 0
    ensures r.Some? && s[0] != '-' ==> r.value >= 0
  {
    if s == [] then None
    else if (s[0] == '-' || s[0] == '+') && |s| > 1 && AllDigits(s[1..]) then
      var magnitude: int := DigitsValue(s[1..]);
      Some(if s[0] == '-' then -magnitude else magnitude)
    else if AllDigits(s) then Some(DigitsValue(s))
    else None
  }

  lemma {:induction false} DigitsRoundTrip(n: nat)
    ensures DigitsValue(Digits(n)) == n
  {
    if n >= 10 {
      var s := Digits(n);
      assert s[..|s| - 1] == Digits(n / 10);
      DigitsRoundTrip(n / 10);
      DigitValueOfChar(n % 10);
    } else {
      DigitValueOfChar(n);
    }
  }

  /** Reading back what `toString` printed gives the same integer. */
  lemma ParseDecimalRoundTrip(i: int)
    ensures ParseDecimal(DecimalString(i)) == Some(i)
  {
    var s := DecimalString(i);
    if i < 0 {
      assert s[0] == '-' && s[1..] == Digits(-i);
      assert AllDigits(s[1..]);
      DigitsRoundTrip(-i);
    } else {
      assert IsDigit(s[0]) && AllDigits(s);
      DigitsRoundTrip(i);
    }
  }

  /** `Screen.Editor.createRoute(noteId)`: the prefix, then `noteId ?: -1`
      in decimal. */
  function CreateRoute(noteId: Option<int>): (route: string)
    ensures EditorRoutePrefix <= route
    ensures |route| > |EditorRoutePrefix|
  {
    EditorRoutePrefix + DecimalString(OrElse(noteId, NewNoteSentinel))
  }

  /** `takeIf { it != -1 }` on an integer argument (NotesNavGraph.kt line 37,
      and the same decode of the saved argument in the editor). */
  function DropSentinel(raw: int): (r: Option<int>)
    ensures r.None? <==> raw == NewNoteSentinel
    ensures r.Some? ==> r.value == raw
  {
    if raw != NewNoteSentinel then Some(raw) else None
  }

  /** The note id the editor destination receives for a route: the argument
      after the prefix read as an integer, -1 when it is absent (the
      argument's default value), then the sentinel dropped. */
  function EditorNoteId(route: string): (r: Option<int>)
    ensures !(EditorRoutePrefix <= route) ==> r.None?
    ensures r.Some? ==>
      && r.value != NewNoteSentinel
      && ParseDecimal(route[|EditorRoutePrefix|..]) == Some(r.value)
  {
    var raw :=
      if EditorRoutePrefix <= route then ParseDecimal(route[|EditorRoutePrefix|..]) else None;
    DropSentinel(OrElse(raw, NewNoteSentinel))
  }

  /** The route carries every optional id to the editor intact, except the
      id -1, which arrives as "new note". */
  lemma RouteRoundTrip(noteId: Option<int>)
    ensures EditorNoteId(CreateRoute(noteId)) == (if noteId == Some(NewNoteSentinel) then None else noteId)
  {
    var route := CreateRoute(noteId);
    assert route[|EditorRoutePrefix|..] == DecimalString(OrElse(noteId, NewNoteSentinel));
    ParseDecimalRoundTrip(OrElse(noteId, NewNoteSentinel));
  }

  /** A new note's route: `createRoute(null)` is "note_editor?noteId=-1". */
  lemma NewNoteRoute()
    ensures CreateRoute(None) == "note_editor?noteId=-1"
  {
  }

  /** The collision: "no id" and the id -1 produce the same route. */
  lemma SentinelCollision()
    ensures CreateRoute(None) == CreateRoute(Some(NewNoteSentinel))
  {
  }

  /** Apart from that collision, distinct optional ids give distinct routes. */
  lemma CreateRouteInjective(x: Option<int>, y: Option<int>)
    requires CreateRoute(x) == CreateRoute(y)
    ensures x == y || (OrElse(x, NewNoteSentinel) == NewNoteSentinel && OrElse(y, NewNoteSentinel) == NewNoteSentinel)
  {
    RouteRoundTrip(x);
    RouteRoundTrip(y);
  }
}
