/** Routing of the two form endpoints, and the form decoder behind them. */
module RequestRouters {
  import opened Bytes
  import opened UrlCodec
  import opened HttpRequests

  const AMP: Text := "&"
  const EQUALS: Text := "="

  /** The raw value of one pair, if its raw key is `key`. */
  function RawValue(pair: Text, key: Text): Option<Text> {
    var eq := Find(pair, EQUALS, 0);
    if eq != -1 && pair[..eq] == key then Some(pair[eq + 1..]) else None
  }

  /** The raw value of the first pair whose raw key is `key`. */
  function Lookup(pairs: seq<Text>, key: Text): Option<Text> {
    if pairs == [] then None
    else if RawValue(pairs[0], key).Some? then RawValue(pairs[0], key)
    else Lookup(pairs[1..], key)
  }

  /** The decoded value of `key` in a form body, empty if there is none. */
  function FormField(body: Text, key: Text): Text {
    var raw := Lookup(Split(body, AMP), key);
    if raw.Some? then UrlDecode(raw.value) else []
  }

  lemma SplitStep(body: Text, start: nat)
    requires start <= |body|
    ensures var end := Find(body, AMP, start);
            if end == -1 then Split(body[start..], AMP) == [body[start..]]
            else Split(body[start..], AMP) == [body[start..end]] + Split(body[end + 1..], AMP)
  {
    var end, rest := Find(body, AMP, start), body[start..];
    forall i | 0 <= i ensures At(rest, AMP, i) <==> At(body, AMP, start + i) {
      AtChar(rest, '&', i);
      AtChar(body, '&', start + i);
    }
    if end == -1 {
      assert Find(rest, AMP, 0) == -1;
    } else {
      assert At(rest, AMP, end - start);
      FindIs(rest, AMP, 0, end - start);
      assert rest[..end - start] == body[start..end];
      AtChar(body, '&', end);
      assert rest[end - start + 1..] == body[end + 1..];
    }
  }

  lemma LookupCons(pair: Text, rest: seq<Text>, key: Text)
    ensures Lookup([pair] + rest, key) ==
            if RawValue(pair, key).Some? then RawValue(pair, key) else Lookup(rest, key)
  {
    assert ([pair] + rest)[1..] == rest;
  }

  /** The decoder's loop finds what splitting the body and searching the pairs finds. */
  method FormValue(body: Text, key: Text) returns (value: Text)
    ensures value == FormField(body, key)
  {
    hide Split, UrlDecode;
    var start := 0;
    assert body[0..] == body;
    while start <= |body|
      invariant 0 <= start <= |body|
      invariant Lookup(Split(body[start..], AMP), key) == Lookup(Split(body, AMP), key)
      decreases |body| - start
    {
      var end := Find(body, AMP, start);
      SplitStep(body, start);
      var pair := if end == -1 then body[start..] else body[start..end];
      LookupCons(pair, if end == -1 then [] else Split(body[end + 1..], AMP), key);
      assert [pair] + [] == [pair];
      var eq := Find(pair, EQUALS, 0);
      if eq != -1 && pair[..eq] == key {
        return UrlDecode(pair[eq + 1..]);
      }
      if end == -1 {
        break;
      }
      start := end + 1;
    }
    return [];
  }

  // ---------- serialised forms ----------

  /** One part of a form: a key that needs no encoding and a value as an encoder wrote it, or something
      without an equals sign, which is no field. */
  datatype Field = Field(key: Text, value: seq<Piece>) | Bare(text: Text)
  {
    predicate Legal() {
      match this
      case Field(key, value) => '&' !in key && '=' !in key && AllLegal(value) && Plain('&') !in value
      case Bare(text) => '&' !in text && '=' !in text
    }

    function Print(): Text {
      match this
      case Field(key, value) => key + EQUALS + PrintAll(value)
      case Bare(text) => text
    }
  }

  predicate LegalFields(fields: seq<Field>) {
    forall f :: f in fields ==> f.Legal()
  }

  function Serialize(fields: seq<Field>): Text {
    if fields == [] then []
    else if |fields| == 1 then fields[0].Print()
    else fields[0].Print() + AMP + Serialize(fields[1..])
  }

  /** The value the form gives to `key`: that of the first field with the key. */
  function Meant(fields: seq<Field>, key: Text): Text
    requires LegalFields(fields)
  {
    if fields == [] then []
    else
      assert fields[0] in fields;
      if fields[0].Field? && fields[0].key == key then MeaningAll(fields[0].value) else Meant(fields[1..], key)
  }

  lemma {:induction false} NoAmpInValue(ps: seq<Piece>)
    requires AllLegal(ps) && Plain('&') !in ps
    ensures '&' !in PrintAll(ps)
  {
    if ps != [] {
      assert ps[0].Legal() && ps[0] in ps;
      assert '&' !in ps[0].Print();
      assert forall p :: p in ps[1..] ==> p in ps;
      NoAmpInValue(ps[1..]);
    }
  }

  lemma FindChar(a: Text, c: char, b: Text)
    requires c !in a
    ensures Find(a + [c] + b, [c], 0) == |a|
    ensures Find(a, [c], 0) == -1
  {
    var s := a + [c] + b;
    forall i | 0 <= i < |a| ensures !At(s, [c], i) && !At(a, [c], i) {
      AtChar(s, c, i);
      AtChar(a, c, i);
    }
    AtChar(s, c, |a|);
    FindIs(s, [c], 0, |a|);
  }

  lemma FieldReads(f: Field, key: Text)
    requires f.Legal()
    ensures '&' !in f.Print()
    ensures RawValue(f.Print(), key) == if f.Field? && f.key == key then Some(PrintAll(f.value)) else None
  {
    match f
    case Field(name, value) =>
      NoAmpInValue(value);
      FindChar(name, '=', PrintAll(value));
      assert f.Print()[..|name|] == name;
      assert f.Print()[|name| + 1..] == PrintAll(value);
    case Bare(text) => FindChar(text, '=', []);
  }

  /** Decoding inverts serialising: every key reads back the value its first field was given. */
  lemma {:induction false} FormRoundTrip(fields: seq<Field>, key: Text)
    requires LegalFields(fields)
    ensures FormField(Serialize(fields), key) == Meant(fields, key)
  {
    if fields == [] {
      FindChar([], '&', []);
      FindChar([], '=', []);
      LookupCons([], [], key);
      var nothing: Text := [];
      assert [nothing] + [] == [nothing];
    } else {
      var f := fields[0];
      assert f in fields && forall x :: x in fields[1..] ==> x in fields;
      FieldReads(f, key);
      if f.Field? {
        DecodeInvertsEncoding(f.value);
      }
      if |fields| == 1 {
        FindChar(f.Print(), '&', []);
        LookupCons(f.Print(), [], key);
        assert [f.Print()] + [] == [f.Print()];
      } else {
        var rest := Serialize(fields[1..]);
        FindChar(f.Print(), '&', rest);
        SplitFirst(f.Print(), AMP, rest);
        LookupCons(f.Print(), Split(rest, AMP), key);
        FormRoundTrip(fields[1..], key);
      }
    }
  }

  // ---------- routing ----------

  datatype RoutedResponse = RoutedResponse(statusCode: nat, body: Text, contentType: Text)

  const JSON: Text := "application/json; charset=utf-8"

  function Handles(r: Req): bool {
    r.path == "/register" || r.path == "/login"
  }

  /** `route`; whether the user service accepts the credentials comes from outside. */
  function Route(r: Req, accepted: bool): RoutedResponse {
    if r.verb != POST then RoutedResponse(405, "{\"error\":\"method not allowed\"}", JSON)
    else if FormField(r.body, "username") == [] || FormField(r.body, "password") == [] then
      RoutedResponse(400, "{\"error\":\"username and password required\"}", JSON)
    else if r.path == "/register" then
      if accepted then RoutedResponse(201, "{\"message\":\"registered\"}", JSON)
      else RoutedResponse(409, "{\"error\":\"username already exists\"}", JSON)
    else if accepted then RoutedResponse(200, "{\"message\":\"login ok\"}", JSON)
    else RoutedResponse(401, "{\"error\":\"invalid credentials\"}", JSON)
  }

  /** A routed request succeeds if and only if it is a POST whose form gives both fields a value and
      whose credentials the user service accepts; the status tells which endpoint it was, and otherwise
      which of these was missing. */
  lemma RouteAdmits(r: Req, accepted: bool)
    requires Handles(r)
    ensures var status := Route(r, accepted).statusCode;
            var filled := FormField(r.body, "username") != [] && FormField(r.body, "password") != [];
            && (status < 400 <==> r.verb == POST && filled && accepted)
            && (status == 201 ==> r.path == "/register") && (status == 200 ==> r.path == "/login")
            && (status == 405 <==> r.verb != POST)
            && (status == 400 <==> r.verb == POST && !filled)
            && (status == 409 <==> r.verb == POST && filled && !accepted && r.path == "/register")
            && (status == 401 <==> r.verb == POST && filled && !accepted && r.path == "/login")
    ensures Route(r, accepted).contentType == JSON
  {
    hide FormField;
  }

  /** Different outcomes are told in different words. */
  lemma OutcomesDiffer(r: Req, accepted: bool, r': Req, accepted': bool)
    ensures Route(r, accepted).statusCode == Route(r', accepted').statusCode <==>
            Route(r, accepted).body == Route(r', accepted').body
  {
    hide FormField;
  }
}
