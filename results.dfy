/** Error plumbing shared by the model: an optional value, a result whose error is the
    message string the native functions box into an Erlang term, and the two ways the
    source combines fallible steps (stop at the first failing step; fail a list
    conversion at its first failing element). */
module Results {

  datatype Option<+T> = None | Some(value: T)

  /** `Err` carries the message that `Error::Term(Box::new(..))` hands back to the caller. */
  datatype Result<+T> = Ok(value: T) | Err(error: string) {

    predicate IsFailure() {
      Err?
    }

    function PropagateFailure<U>(): Result<U>
      requires Err?
    {
      Err(error)
    }

    function Extract(): T
      requires Ok?
    {
      value
    }
  }

  /** `.map_err(|_| Error::Term(Box::new(message)))` applied to a parse that yields an Option. */
  function OrError<T>(o: Option<T>, message: string): Result<T> {
    match o
    case Some(v) => Ok(v)
    case None => Err(message)
  }

  /** The message of a failed step, `None` for a step that succeeded. */
  function ErrorOf<T>(r: Result<T>): Option<string> {
    if r.Err? then Some(r.error) else None
  }

  /** The outcome of a list of `?`-chained checks: the message of the first check that
      fails, or `None` when every check passes. */
  function FirstError(checks: seq<Option<string>>): (r: Option<string>)
    ensures r.Some? <==> exists i | 0 <= i < |checks| :: checks[i].Some?
    ensures r.Some? ==> exists i | 0 <= i < |checks| :: checks[i] == r && forall j | 0 <= j < i :: checks[j].None?
  {
    if checks == [] then None
    else if checks[0].Some? then checks[0]
    else
      var r := FirstError(checks[1..]);
      assert forall i | 1 <= i < |checks| :: checks[i] == checks[1..][i - 1];
      r
  }

  /** Two checks in sequence: the first one's message if it fails, else the second's. */
  function FirstOf(first: Option<string>, next: Option<string>): Option<string> {
    if first.Some? then first else next
  }

  /** Converting every element of a list with `?`, as a `for` loop that pushes each converted
      element does: the conversion succeeds exactly when every element converts, keeps the
      order one-to-one, and otherwise reports the error of the first element that fails. */
  function MapAll<A, B>(f: A -> Result<B>, xs: seq<A>): (r: Result<seq<B>>)
    ensures r.Ok? <==> forall i | 0 <= i < |xs| :: f(xs[i]).Ok?
    ensures r.Ok? ==> |r.value| == |xs| && forall i | 0 <= i < |xs| :: r.value[i] == f(xs[i]).value
    ensures r.Err? ==>
              exists i | 0 <= i < |xs| ::
                f(xs[i]).Err? && f(xs[i]).error == r.error && forall j | 0 <= j < i :: f(xs[j]).Ok?
  {
    if xs == [] then Ok([])
    else
      var y :- f(xs[0]);
      var ys :- MapAll(f, xs[1..]);
      assert forall i | 1 <= i < |xs| :: xs[i] == xs[1..][i - 1];
      Ok([y] + ys)
  }

  /** The per-element checks of a list conversion stop where the conversion stops: the first
      failing element's message, or none. */
  lemma {:induction false} MapAllFirstError<A, B>(f: A -> Result<B>, xs: seq<A>)
    ensures FirstError(seq(|xs|, i requires 0 <= i < |xs| => ErrorOf(f(xs[i])))) == ErrorOf(MapAll(f, xs))
  {
    var cs := seq(|xs|, i requires 0 <= i < |xs| => ErrorOf(f(xs[i])));
    if xs != [] {
      var tail := seq(|xs[1..]|, i requires 0 <= i < |xs[1..]| => ErrorOf(f(xs[1..][i])));
      assert cs[1..] == tail;
      MapAllFirstError(f, xs[1..]);
    }
  }
}
