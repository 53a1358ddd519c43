/**
 * URL query strings as the revenue workflow builds them: `name=value`
 * pairs joined by `&`, each value rendered the way a template literal renders
 * a number (or `undefined` when the value is absent). The parser is the
 * partner used to state what a built URL carries.
 */
module Query {
  import opened Common
  import opened Text

  datatype Param = Param(name: string, value: Option<int>)

  /** `${v}` for an optional number. */
  function ValueText(v: Option<int>): string {
    match v
    case None => "undefined"
    case Some(n) => IntText(n)
  }

  function ParseValue(s: string): Option<Option<int>> {
    if s == "undefined" then Some(None)
    else match ParseInt(s)
      case None => None
      case Some(n) => Some(Some(n))
  }

  lemma ValueRoundTrip(v: Option<int>)
    ensures ParseValue(ValueText(v)) == Some(v)
  {
    match v
    case None =>
    case Some(n) =>
      IntTextRoundTrip(n);
      IntTextCharacters(n);
      assert IntText(n)[0] != "undefined"[0];
  }

  lemma ValueTextHasNoSeparator(v: Option<int>)
    ensures '&' !in ValueText(v) && '=' !in ValueText(v)
  {
    match v
    case None =>
    case Some(n) => IntTextCharacters(n);
  }

  /** A parameter name the query syntax can carry unambiguously. */
  predicate NameOk(name: string) {
    |name| > 0 && '&' !in name && '=' !in name
  }

  predicate NamesOk(ps: seq<Param>) {
    forall i :: 0 <= i < |ps| ==> NameOk(ps[i].name)
  }

  function RenderParam(p: Param): string {
    p.name + "=" + ValueText(p.value)
  }

  /** `fields.join('&')`. */
  function Join(fields: seq<string>): string {
    if |fields| == 0 then ""
    else if |fields| == 1 then fields[0]
    else fields[0] + "&" + Join(fields[1..])
  }

  /** `s.split('&')`: the pieces between separators, at least one. */
  function Split(s: string): (fields: seq<string>)
    ensures |fields| > 0
    decreases |s|
  {
    match IndexOf(s, '&')
    case None => [s]
    case Some(i) => [s[..i]] + Split(s[i + 1..])
  }

  /** Text before the first separator is the first piece. */
  lemma SplitAtFirst(head: string, tail: string)
    requires '&' !in head
    ensures Split(head + "&" + tail) == [head] + Split(tail)
  {
    var s := head + "&" + tail;
    IndexOfAfter(head, '&', tail);
    assert s[..|head|] == head;
    assert s[|head| + 1..] == tail;
  }

  /** Splitting undoes joining when no piece contains the separator. */
  lemma {:induction false} SplitJoin(fields: seq<string>)
    requires |fields| > 0
    requires forall i :: 0 <= i < |fields| ==> '&' !in fields[i]
    ensures Split(Join(fields)) == fields
  {
    if |fields| > 1 {
      var rest := fields[1..];
      assert Join(fields) == fields[0] + "&" + Join(rest);
      SplitAtFirst(fields[0], Join(rest));
      SplitJoin(rest);
      assert [fields[0]] + rest == fields;
    }
  }

  /** A character other than the separator that no piece contains is not in the joined text. */
  lemma {:induction false} JoinAvoids(fields: seq<string>, c: char)
    requires c != '&'
    requires forall i :: 0 <= i < |fields| ==> c !in fields[i]
    ensures c !in Join(fields)
  {
    if |fields| > 1 {
      JoinAvoids(fields[1..], c);
      assert c !in "&";
    }
  }

  /** The `name=value` pieces, one per parameter, in order. */
  function Fields(ps: seq<Param>): (fields: seq<string>)
    ensures |fields| == |ps|
  {
    seq(|ps|, i requires 0 <= i < |ps| => RenderParam(ps[i]))
  }

  /** The query string: the rendered pairs joined by `&`. */
  function Render(ps: seq<Param>): string {
    Join(Fields(ps))
  }

  function ParseParam(s: string): Option<Param> {
    match IndexOf(s, '=')
    case None => None
    case Some(i) =>
      match ParseValue(s[i + 1..])
      case None => None
      case Some(v) => Some(Param(s[..i], v))
  }

  /** Parses each piece; fails when any piece fails. */
  function ParseFields(fields: seq<string>): Option<seq<Param>> {
    if |fields| == 0 then Some([])
    else match ParseParam(fields[0])
      case None => None
      case Some(p) =>
        match ParseFields(fields[1..])
        case None => None
        case Some(rest) => Some([p] + rest)
  }

  /** Splits a query string back into its parameters. */
  function Parse(s: string): Option<seq<Param>> {
    if s == "" then Some([]) else ParseFields(Split(s))
  }

  lemma ParamRoundTrip(p: Param)
    requires NameOk(p.name)
    ensures ParseParam(RenderParam(p)) == Some(p)
    ensures '&' !in RenderParam(p) && |RenderParam(p)| > 0
  {
    var v := ValueText(p.value);
    IndexOfAfter(p.name, '=', v);
    assert RenderParam(p) == p.name + ['='] + v;
    assert RenderParam(p)[|p.name| + 1..] == v;
    assert RenderParam(p)[..|p.name|] == p.name;
    ValueRoundTrip(p.value);
    ValueTextHasNoSeparator(p.value);
  }

  lemma ParseFieldsCons(fields: seq<string>, p: Param, rest: seq<Param>)
    requires |fields| > 0 && ParseParam(fields[0]) == Some(p) && ParseFields(fields[1..]) == Some(rest)
    ensures ParseFields(fields) == Some([p] + rest)
  {
  }

  lemma FieldsTail(ps: seq<Param>)
    requires |ps| > 0
    ensures NamesOk(ps) ==> NamesOk(ps[1..])
    ensures Fields(ps)[1..] == Fields(ps[1..])
  {
    if NamesOk(ps) {
      forall i | 0 <= i < |ps| - 1 ensures NameOk(ps[1..][i].name) {
        assert ps[1..][i] == ps[i + 1];
      }
    }
  }

  lemma {:induction false} ParseFieldsRoundTrip(ps: seq<Param>)
    requires NamesOk(ps)
    ensures ParseFields(Fields(ps)) == Some(ps)
  {
    if |ps| > 0 {
      var rest := ps[1..];
      var fields := Fields(ps);
      FieldsTail(ps);
      ParseFieldsRoundTrip(rest);
      assert ParseParam(fields[0]) == Some(ps[0]) by {
        ParamRoundTrip(ps[0]);
      }
      ParseFieldsCons(fields, ps[0], rest);
      assert [ps[0]] + rest == ps;
    }
  }

  /** Rendering then parsing a parameter list gives the list back. */
  lemma {:induction false} RoundTrip(ps: seq<Param>)
    requires NamesOk(ps)
    ensures Parse(Render(ps)) == Some(ps)
  {
    var fields := Fields(ps);
    ParseFieldsRoundTrip(ps);
    if |ps| > 0 {
      forall i | 0 <= i < |fields| ensures '&' !in fields[i] {
        ParamRoundTrip(ps[i]);
      }
      SplitJoin(fields);
      ParamRoundTrip(ps[0]);
      assert |Join(fields)| >= |fields[0]| > 0;
    }
  }
}
