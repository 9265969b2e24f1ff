/** What the bot and the gateway sign: canonical texts of a request and of the response to it. */
module Signatures {
  import opened CanonicalText
  import opened Utf16

  function Named(name: string, value: Json): Field {
    Field(Ascii(name), value)
  }

  /** The method in upper case, the bot's id in lower case; any body. */
  function RequestPayload(verb: Text, path: Text, botId: Text, timestamp: Text, body: Json): Json {
    Obj([Named("audience", Str(Ascii("donut-upgrader-api"))), Named("body", body), Named("botId", Str(botId)),
         Named("method", Str(verb)), Named("path", Str(path)), Named("timestamp", Str(timestamp)),
         Named("version", Num([50]))])
  }

  function ResponsePayload(
      verb: Text, path: Text, botId: Text, requestTimestamp: Text, responseTimestamp: Text, statusCode: NumberText,
      requestBody: Json, responseBody: Json): Json {
    Obj([Named("audience", Str(Ascii("donut-upgrader-bot"))), Named("botId", Str(botId)),
         Named("method", Str(verb)), Named("path", Str(path)), Named("requestBody", requestBody),
         Named("requestTimestamp", Str(requestTimestamp)), Named("responseBody", responseBody),
         Named("responseTimestamp", Str(responseTimestamp)), Named("statusCode", Num(statusCode)),
         Named("version", Num([49]))])
  }

  lemma {:induction false} SameSettledFields(a: seq<Field>, b: seq<Field>)
    requires |a| == |b|
    ensures SettledFields(a) == SettledFields(b) <==>
            forall i | 0 <= i < |a| :: a[i].key == b[i].key && Settled(a[i].value) == Settled(b[i].value)
  {
    if a != [] {
      SameSettledFields(a[1..], b[1..]);
      var p, q := SettledFields(a), SettledFields(b);
      assert p[1..] == SettledFields(a[1..]) && q[1..] == SettledFields(b[1..]);
      assert p == q <==> p[0] == q[0] && p[1..] == q[1..];
    }
  }

  lemma AudiencesDiffer()
    ensures Ascii("donut-upgrader-api") != Ascii("donut-upgrader-bot")
  {
    var a, b := "donut-upgrader-api", "donut-upgrader-bot";
    assert Ascii(a)[15] == AsciiUnit(a[15]) && Ascii(b)[15] == AsciiUnit(b[15]);
  }

  lemma FirstFieldSettled(v: Json)
    requires v.Obj? && v.fields != []
    ensures Settled(v).Obj? && Settled(v).fields != []
    ensures Settled(v).fields[0] == Field(v.fields[0].key, Settled(v.fields[0].value))
  {
  }

  /** No request is ever signed with the text of a response, whatever their contents. */
  lemma RequestsAndResponsesNeverCollide(
      m: Text, p: Text, b: Text, t: Text, body: Json, m': Text, p': Text, b': Text, t': Text, u': Text, code: NumberText,
      asked: Json, answered: Json)
    ensures Canonical(RequestPayload(m, p, b, t, body))
         != Canonical(ResponsePayload(m', p', b', t', u', code, asked, answered))
  {
    hide Ascii, Canonical, Settled;
    var q, r := RequestPayload(m, p, b, t, body), ResponsePayload(m', p', b', t', u', code, asked, answered);
    AudiencesDiffer();
    FirstFieldSettled(q);
    FirstFieldSettled(r);
    SettledText(Ascii("donut-upgrader-api"));
    SettledText(Ascii("donut-upgrader-bot"));
    SameTextSameValue(q, r);
  }

  lemma SettledText(t: Text)
    ensures Settled(Str(t)) == Str(t)
  {
  }

  /** Two objects with the same keys in the same order have the same text exactly when their values do. */
  lemma SameKeysSameText(a: seq<Field>, b: seq<Field>)
    requires |a| == |b| && forall i | 0 <= i < |a| :: a[i].key == b[i].key
    ensures Canonical(Obj(a)) == Canonical(Obj(b)) <==>
            SameValues(a, b)
  {
    SameTextSameValue(Obj(a), Obj(b));
    SameSettledFields(a, b);
    assert Settled(Obj(a)) == Settled(Obj(b)) <==> SettledFields(a) == SettledFields(b);
    hide Canonical, Settled, SettledFields;
  }

  predicate SameValues(a: seq<Field>, b: seq<Field>)
    requires |a| == |b|
  {
    forall i | 0 <= i < |a| :: Settled(a[i].value) == Settled(b[i].value)
  }

  lemma SameMiddle(f: seq<Field>, g: seq<Field>)
    requires |f| == |g| == 7 && f[0].value == g[0].value && f[6].value == g[6].value
    ensures SameValues(f, g) <==>
            && Settled(f[1].value) == Settled(g[1].value) && Settled(f[2].value) == Settled(g[2].value)
            && Settled(f[3].value) == Settled(g[3].value) && Settled(f[4].value) == Settled(g[4].value)
            && Settled(f[5].value) == Settled(g[5].value)
  {
    hide Settled;
  }

  lemma RequestValues(m: Text, p: Text, b: Text, t: Text, body: Json)
    ensures var fields := RequestPayload(m, p, b, t, body).fields;
            && |fields| == 7
            && (forall i | 0 <= i < 7 :: fields[i].key == RequestPayload([], [], [], [], Null).fields[i].key)
            && fields[0].value == Str(Ascii("donut-upgrader-api")) && fields[6].value == Num([50])
            && fields[1].value == body && fields[2].value == Str(b) && fields[3].value == Str(m)
            && fields[4].value == Str(p) && fields[5].value == Str(t)
  {
    hide Ascii;
  }

  /** A signed request text fixes every part of the request, the body up to what JSON does not tell apart. */
  lemma RequestTextFixesTheRequest(
      m: Text, p: Text, b: Text, t: Text, body: Json, m': Text, p': Text, b': Text, t': Text, body': Json)
    ensures Canonical(RequestPayload(m, p, b, t, body)) == Canonical(RequestPayload(m', p', b', t', body'))
       <==> m == m' && p == p' && b == b' && t == t' && Settled(body) == Settled(body')
  {
    var q, r := RequestPayload(m, p, b, t, body), RequestPayload(m', p', b', t', body');
    RequestValues(m, p, b, t, body);
    RequestValues(m', p', b', t', body');
    assert q == Obj(q.fields) && r == Obj(r.fields);
    hide Ascii, Canonical, RequestPayload;
    SameKeysSameText(q.fields, r.fields);
    SameMiddle(q.fields, r.fields);
    SettledTexts(b, b');
    SettledTexts(m, m');
    SettledTexts(p, p');
    SettledTexts(t, t');
    hide Settled, SameValues;
  }

  lemma SettledTexts(a: Text, b: Text)
    ensures Settled(Str(a)) == Settled(Str(b)) <==> a == b
  {
  }
}
