/**
 * Python's `template % arg` for a template string and one string argument,
 * as the GET handler builds its URL. `%s` inserts the argument, `%%` a
 * percent sign; the argument must be consumed exactly once.
 */
module UrlFormat {
  import opened PyValues

  function PrependOk(p: string, r: Result<string>): Result<string> {
    match r
    case Ok(s) => Ok(p + s)
    case Err(e) => Err(e)
  }

  /**
   * Formats the rest of the template, left to right, as CPython does; `used`
   * records whether the argument was already consumed. Errors: an argument
   * never consumed or asked for twice (TypeError), a template ending in `%`
   * or a conversion other than `%s` and `%%` (ValueError).
   */
  function FormatFrom(t: string, arg: string, used: bool): (r: Result<string>)
    decreases |t|
  {
    if t == [] then (if used then Ok([]) else Err(TypeError))
    else if t[0] != '%' then PrependOk([t[0]], FormatFrom(t[1..], arg, used))
    else if |t| == 1 then Err(ValueError)
    else if t[1] == '%' then PrependOk("%", FormatFrom(t[2..], arg, used))
    else if t[1] == 's' then (if used then Err(TypeError) else PrependOk(arg, FormatFrom(t[2..], arg, true)))
    else Err(ValueError)
  }

  /** `template % arg` */
  function Format(template: string, arg: string): (r: Result<string>) {
    FormatFrom(template, arg, false)
  }

  // ---- what the formatter does with the templates the handlers use ----------

  lemma {:induction false} LiteralText(p: string, rest: string, arg: string, used: bool)
    requires '%' !in p
    ensures FormatFrom(p + rest, arg, used) == PrependOk(p, FormatFrom(rest, arg, used))
  {
    var r := FormatFrom(rest, arg, used);
    if p != [] {
      assert (p + rest)[1..] == p[1..] + rest;
      LiteralText(p[1..], rest, arg, used);
      assert [p[0]] + p[1..] == p;
      if r.Ok? {
        assert [p[0]] + (p[1..] + r.value) == p + r.value;
      }
    } else {
      assert p + rest == rest;
      if r.Ok? {
        assert p + r.value == r.value;
      }
    }
  }

  /** A template with one `%s` and no other `%` yields the id spliced in its place. */
  lemma SubstitutesArgument(p: string, q: string, arg: string)
    requires '%' !in p && '%' !in q
    ensures Format(p + "%s" + q, arg) == Ok(p + arg + q)
  {
    LiteralText(p, "%s" + q, arg, false);
    assert ("%s" + q)[2..] == q;
    LiteralText(q, [], arg, true);
    assert q + [] == q;
    assert p + "%s" + q == p + ("%s" + q);
    assert p + (arg + (q + [])) == p + arg + q;
  }

  /** A template without any `%` rejects the argument: "not all arguments converted". */
  lemma NoPlaceholderRaises(t: string, arg: string)
    requires '%' !in t
    ensures Format(t, arg) == Err(TypeError)
  {
    LiteralText(t, [], arg, false);
    assert t + [] == t;
  }

  /** A template with two `%s` asks for a second argument: "not enough arguments". */
  lemma TwoPlaceholdersRaise(p: string, q: string, r: string, arg: string)
    requires '%' !in p && '%' !in q
    ensures Format(p + "%s" + q + "%s" + r, arg) == Err(TypeError)
  {
    var t := p + "%s" + q + "%s" + r;
    assert t == p + ("%s" + (q + ("%s" + r)));
    LiteralText(p, "%s" + (q + ("%s" + r)), arg, false);
    assert ("%s" + (q + ("%s" + r)))[2..] == q + ("%s" + r);
    LiteralText(q, "%s" + r, arg, true);
  }

  /** Whether formatting succeeds depends on the template alone, never on the id. */
  lemma {:induction false} OutcomeIndependentOfArgument(t: string, a: string, b: string, used: bool)
    ensures FormatFrom(t, a, used).Ok? == FormatFrom(t, b, used).Ok?
    decreases |t|
  {
    if t != [] && t[0] != '%' {
      OutcomeIndependentOfArgument(t[1..], a, b, used);
    } else if |t| >= 2 && t[0] == '%' && t[1] == '%' {
      OutcomeIndependentOfArgument(t[2..], a, b, used);
    } else if |t| >= 2 && t[0] == '%' && t[1] == 's' && !used {
      OutcomeIndependentOfArgument(t[2..], a, b, true);
    }
  }
}
