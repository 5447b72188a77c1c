/** Query strings: `key=value` parameters joined by `&`. The source builds
    its URLs by concatenation; these functions read them back. */
module QueryString {
  import opened Text

  /** One `key=value` parameter, split at its first `=`. */
  function ParseParam(p: string): (param: (string, string))
  {
    match IndexOf(p, '=')
    case None => (p, "")
    case Some(i) => (p[..i], p[i + 1..])
  }

  function RenderParam(param: (string, string)): (p: string)
  {
    param.0 + "=" + param.1
  }

  /** The parameters of a query string (the part after `?`), in order. */
  function ParseQuery(q: string): (params: seq<(string, string)>)
    ensures |params| == |Split(q, '&')|
  {
    var parts := Split(q, '&');
    seq(|parts|, i requires 0 <= i < |parts| => ParseParam(parts[i]))
  }

  function RenderQuery(params: seq<(string, string)>): (q: string)
  {
    Join(seq(|params|, i requires 0 <= i < |params| => RenderParam(params[i])), '&')
  }

  /** A parameter whose key holds neither `=` nor `&` and whose value holds
      no `&` survives rendering and reading back. */
  predicate WellFormedParam(param: (string, string)) {
    '=' !in param.0 && '&' !in param.0 && '&' !in param.1
  }

  lemma ParamRoundTrip(param: (string, string))
    requires '=' !in param.0
    ensures ParseParam(RenderParam(param)) == param
  {
    IndexOfAfter(param.0, '=', param.1);
    var s := RenderParam(param);
    assert s == param.0 + ['='] + param.1;
    assert s[..|param.0|] == param.0;
    assert s[|param.0| + 1..] == param.1;
  }

  /** Reading back a rendered, non-empty parameter list gives the list. */
  lemma QueryRoundTrip(params: seq<(string, string)>)
    requires |params| >= 1
    requires forall i :: 0 <= i < |params| ==> WellFormedParam(params[i])
    ensures ParseQuery(RenderQuery(params)) == params
  {
    var rendered := seq(|params|, i requires 0 <= i < |params| => RenderParam(params[i]));
    forall i | 0 <= i < |rendered|
      ensures '&' !in rendered[i]
    {
      assert rendered[i] == params[i].0 + ['='] + params[i].1;
    }
    SplitJoin(rendered, '&');
    forall i | 0 <= i < |params|
      ensures ParseParam(rendered[i]) == params[i]
    {
      ParamRoundTrip(params[i]);
    }
  }
}
