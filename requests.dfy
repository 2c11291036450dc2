/**
 * What the handlers read from a request: whether it carries a usable JSON
 * document, the `form` query argument, and the `date_added` field.
 */
module Requests {
  import opened Wrappers
  import opened Json
  import opened Http
  import opened Models
  import opened Platform

  /**
   * `request.json` is truthy. `None` stands for a request that is not JSON;
   * a JSON null, false, zero or empty document is refused the same way.
   */
  predicate JsonRequest(body: Option<Value>) {
    body.Some? && Truthy(body.value)
  }

  /** `request.args.get('form', default) == wanted`. */
  function FormIs(form: Option<string>, default: string, wanted: string): (r: bool)
    ensures form.Some? ==> (r <==> form.value == wanted)
    ensures form.None? ==> (r <==> default == wanted)
  {
    form.GetOr(default) == wanted
  }

  /**
   * `datetime.fromisoformat(v)` with its ValueError turned into a client
   * error, as the order handler does it: a string that parses gives its
   * date, a string that does not is a bad request, and anything else raises
   * a TypeError that nothing catches.
   */
  function ReadDate(env: Env, v: Value): (r: Step<Date>)
    ensures r.Proceed? <==> v.Str? && env.fromIsoFormat(v.s).Some?
    ensures r.Proceed? ==> r.value == env.fromIsoFormat(v.s).value
    ensures r.Halt? ==> r.response == Empty(if v.Str? then BadRequest else ServerError)
  {
    if !v.Str? then Halt(Empty(ServerError))
    else match env.fromIsoFormat(v.s)
      case Some(d) => Proceed(d)
      case None => Halt(Empty(BadRequest))
  }
}
