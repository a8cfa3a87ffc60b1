/** Shapes shared by the three screen reducers: Kotlin's nullable values, the
    answer a suspending repository call hands back, and the list operations
    the reducers use. */
module Common {

  /** A Kotlin nullable value: `None` is `null`. */
  datatype Option<+T> = None | Some(value: T) {
    /** Kotlin's elvis operator `this ?: default`. */
    function GetOr(default: T): T {
      match this
      case Some(v) => v
      case None => default
    }
  }

  /** What a repository call gives back to the reducer once it resumes: a
      non-null value, `null`, or an exception thrown out of the call. */
  datatype RepoResult<+T> = Success(value: T) | Null | Failure

  /** Kotlin's `String.toDoubleOrNull()`, kept abstract: which strings parse
      and to which value is supplied from outside. A `Double` is read as a
      `real`; `String.toDouble()` throws exactly where this gives `None`. */
  type DoubleParser = string -> Option<real>

  /** The parse succeeds and yields a number greater than zero. */
  predicate ParsesToPositive(parse: DoubleParser, s: string) {
    parse(s).Some? && parse(s).value > 0.0
  }

  function Last<T>(s: seq<T>): T
    requires |s| > 0
  {
    s[|s| - 1]
  }

  /** `toMutableList().also { it.removeAt(i) }`: the list without element `i`. */
  function RemoveAt<T>(s: seq<T>, i: int): (r: seq<T>)
    requires 0 <= i < |s|
    ensures |r| == |s| - 1
    ensures forall j :: 0 <= j < i ==> r[j] == s[j]
    ensures forall j :: i <= j < |r| ==> r[j] == s[j + 1]
  {
    s[..i] + s[i + 1..]
  }

  /** Removing the element just appended gives back the list as it was. */
  lemma RemoveAtUndoesAppend<T>(s: seq<T>, x: T)
    ensures RemoveAt(s + [x], |s|) == s
  {
    assert (s + [x])[..|s|] == s;
  }

  /** The value carried by the last event of `es` that `pick` recognises,
      or `default` when no event of `es` carries one. */
  function LastPicked<E, T>(es: seq<E>, pick: E -> Option<T>, default: T): T
  {
    if es == [] then default
    else LastPicked(es[1..], pick, pick(es[0]).GetOr(default))
  }
}
