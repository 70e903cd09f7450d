// The canonical JSON forms an approval is hashed over: the daemon's full form and its wire form
// (daemon/internal/approval/hash.go), and the sidecar's rendering of the wire form
// (sidecar/src/h3.ts), with a parser that inverts them.
module Canonical {
  import opened Wrappers
  import opened Intents
  import opened Ordering
  import opened Decimals
  import opened JsonText

  datatype Scalar = Text(s: string) | Number(n: int)

  datatype Field = Field(name: string, value: Scalar)

  // How the two programs print an instant: to the nanosecond, and to the second.
  datatype Clock = Clock(nanos: Instant -> string, seconds: Instant -> string)

  // Each printing is injective on the instants it distinguishes.
  ghost predicate Faithful(c: Clock) {
    && (forall a, b :: c.nanos(a) == c.nanos(b) ==> a == b)
    && (forall a, b :: c.seconds(a) == c.seconds(b) <==> WholeSeconds(a) == WholeSeconds(b))
  }

  // ----- Canonical objects -----

  function ScalarText(v: Scalar): string {
    match v
    case Text(s) => JsQuote(s)
    case Number(n) => Decimal(n)
  }

  function Member(f: Field): string {
    JsQuote(f.name) + ":" + ScalarText(f.value)
  }

  function Rest(fs: seq<Field>): string {
    if fs == [] then "" else "," + Member(fs[0]) + Rest(fs[1..])
  }

  function Joined(fs: seq<Field>): string {
    if fs == [] then "" else Member(fs[0]) + Rest(fs[1..])
  }

  function Object(fs: seq<Field>): string {
    "{" + Joined(fs) + "}"
  }

  // ----- The daemon's two field lists -----

  // Every field of the intent under its own name, in the order the struct declares them.
  function Declared(c: Clock, i: Intent): seq<Field> {
    [Field("IntentID", Text(i.intentId)), Field("OrgID", Text(i.orgId)), Field("JobID", Text(i.jobId)),
     Field("TaskID", Text(i.taskId)), Field("AgentID", Text(i.agentId)), Field("Kind", Text(i.kind)),
     Field("Merchant", Text(i.merchant)), Field("Resource", Text(i.resource)),
     Field("AmountMicros", Number(i.amountMicros)), Field("Purpose", Text(i.purpose)), Field("Nonce", Text(i.nonce)),
     Field("PolicyVersion", Text(i.policyVersion)), Field("ExpiresAt", Text(c.nanos(i.expiresAt))),
     Field("ChainRef", Text(i.chainRef)), Field("AlternativeTo", Text(i.alternativeTo)), Field("Asset", Text(i.asset)),
     Field("Network", Text(i.network)), Field("MaxAmountMicros", Number(i.maxAmountMicros)),
     Field("PayTo", Text(i.payTo)), Field("ResourceURL", Text(i.resourceUrl))]
  }

  // The same fields in the order of their names.
  function Internal(c: Clock, i: Intent): seq<Field> {
    [Field("AgentID", Text(i.agentId)), Field("AlternativeTo", Text(i.alternativeTo)),
     Field("AmountMicros", Number(i.amountMicros)), Field("Asset", Text(i.asset)), Field("ChainRef", Text(i.chainRef)),
     Field("ExpiresAt", Text(c.nanos(i.expiresAt))), Field("IntentID", Text(i.intentId)), Field("JobID", Text(i.jobId)),
     Field("Kind", Text(i.kind)), Field("MaxAmountMicros", Number(i.maxAmountMicros)),
     Field("Merchant", Text(i.merchant)), Field("Network", Text(i.network)), Field("Nonce", Text(i.nonce)),
     Field("OrgID", Text(i.orgId)), Field("PayTo", Text(i.payTo)), Field("PolicyVersion", Text(i.policyVersion)),
     Field("Purpose", Text(i.purpose)), Field("Resource", Text(i.resource)),
     Field("ResourceURL", Text(i.resourceUrl)), Field("TaskID", Text(i.taskId))]
  }

  // The wire form's fields. Its merchant is the payee address and its resource the probed URL.
  function Wire(c: Clock, i: Intent): seq<Field> {
    [Field("agentId", Text(i.agentId)), Field("amount", Text(Decimal(i.amountMicros))), Field("asset", Text(i.asset)),
     Field("expiresAt", Text(c.seconds(i.expiresAt))), Field("intentId", Text(i.intentId)), Field("jobId", Text(i.jobId)),
     Field("maxAmount", Text(Decimal(i.maxAmountMicros))), Field("merchant", Text(i.payTo)),
     Field("network", Text(i.network)), Field("nonce", Text(i.nonce)), Field("policyVersion", Text(i.policyVersion)),
     Field("purpose", Text(i.purpose)), Field("resource", Text(i.resourceUrl)), Field("taskId", Text(i.taskId))]
  }

  function Names(fs: seq<Field>): seq<string> {
    seq(|fs|, k requires 0 <= k < |fs| => fs[k].name)
  }

  const INTERNAL_NAMES: seq<string> :=
    ["AgentID", "AlternativeTo", "AmountMicros", "Asset", "ChainRef", "ExpiresAt", "IntentID", "JobID", "Kind",
     "MaxAmountMicros", "Merchant", "Network", "Nonce", "OrgID", "PayTo", "PolicyVersion", "Purpose", "Resource",
     "ResourceURL", "TaskID"]

  lemma NamesRise0()
    ensures forall k :: 0 <= k < 5 ==> Rises(INTERNAL_NAMES, k)
  {
    Precedes("AgentID", "AlternativeTo", 1);
    Precedes("AlternativeTo", "AmountMicros", 1);
    Precedes("AmountMicros", "Asset", 1);
    Precedes("Asset", "ChainRef", 0);
    Precedes("ChainRef", "ExpiresAt", 0);
  }

  lemma NamesRise5()
    ensures forall k :: 5 <= k < 10 ==> Rises(INTERNAL_NAMES, k)
  {
    Precedes("ExpiresAt", "IntentID", 0);
    Precedes("IntentID", "JobID", 0);
    Precedes("JobID", "Kind", 0);
    Precedes("Kind", "MaxAmountMicros", 0);
    Precedes("MaxAmountMicros", "Merchant", 1);
  }

  lemma NamesRise10()
    ensures forall k :: 10 <= k < 15 ==> Rises(INTERNAL_NAMES, k)
  {
    Precedes("Merchant", "Network", 0);
    Precedes("Network", "Nonce", 1);
    Precedes("Nonce", "OrgID", 0);
    Precedes("OrgID", "PayTo", 0);
    Precedes("PayTo", "PolicyVersion", 1);
  }

  lemma NamesRise15()
    ensures forall k :: 15 <= k < 17 ==> Rises(INTERNAL_NAMES, k)
  {
    Precedes("PolicyVersion", "Purpose", 1);
    Precedes("Purpose", "Resource", 0);
  }

  lemma NamesRise17()
    ensures forall k :: 17 <= k < 19 ==> Rises(INTERNAL_NAMES, k)
  {
    Precedes("Resource", "ResourceURL", 8);
    Precedes("ResourceURL", "TaskID", 0);
  }

  lemma TwentyRise(xs: seq<string>)
    requires |xs| == 20
    requires forall k :: 0 <= k < 5 ==> Rises(xs, k)
    requires forall k :: 5 <= k < 10 ==> Rises(xs, k)
    requires forall k :: 10 <= k < 15 ==> Rises(xs, k)
    requires forall k :: 15 <= k < 17 ==> Rises(xs, k)
    requires forall k :: 17 <= k < 19 ==> Rises(xs, k)
    ensures Sorted(xs, StringLe) && Distinct(xs)
  {
    ChainSorted(xs);
  }

  lemma InternalNamesOrdered()
    ensures Sorted(INTERNAL_NAMES, StringLe) && Distinct(INTERNAL_NAMES)
  {
    NamesRise0();
    NamesRise5();
    NamesRise10();
    NamesRise15();
    NamesRise17();
    TwentyRise(INTERNAL_NAMES);
  }

  // Sorting the declared names gives the names of the full form, each once.
  lemma NamesSort(c: Clock, i: Intent)
    ensures Distinct(Names(Declared(c, i))) && Sort(Names(Declared(c, i)), StringLe) == Names(Internal(c, i))
  {
    var d := Declared(c, i);
    assert Names(Internal(c, i)) == INTERNAL_NAMES;
    assert Names(d) ==
      ["IntentID", "OrgID", "JobID", "TaskID", "AgentID", "Kind", "Merchant", "Resource", "AmountMicros", "Purpose",
       "Nonce", "PolicyVersion", "ExpiresAt", "ChainRef", "AlternativeTo", "Asset", "Network", "MaxAmountMicros",
       "PayTo", "ResourceURL"];
    InternalNamesOrdered();
    StringOrder();
    StringStrict(INTERNAL_NAMES);
    SortIs(Names(d), INTERNAL_NAMES, StringLe);
  }

  lemma InternalIsDeclared(c: Clock, i: Intent)
    ensures forall f :: f in Internal(c, i) ==> f in Declared(c, i)
  {
  }

  // ----- Building the text -----

  method CanonicalValue(v: Scalar) returns (text: string)
    ensures text == ScalarText(v)
  {
    match v {
      case Text(s) => text := JsonString(s);
      case Number(n) => text := Decimal(n);
    }
  }

  // Reflect over the fields: their names in order, and each one's text.
  method Reflect(d: seq<Field>) returns (names: seq<string>, values: map<string, string>)
    requires Distinct(Names(d))
    ensures names == Names(d)
    ensures forall k :: 0 <= k < |d| ==> d[k].name in values && values[d[k].name] == ScalarText(d[k].value)
  {
    names, values := [], map[];
    for f := 0 to |d|
      invariant |names| == f && forall k :: 0 <= k < f ==> names[k] == d[k].name
      invariant forall k :: 0 <= k < f ==> d[k].name in values && values[d[k].name] == ScalarText(d[k].value)
    {
      var value := CanonicalValue(d[f].value);
      forall k | 0 <= k < f ensures d[k].name != d[f].name {
        assert Names(d)[k] != Names(d)[f];
      }
      names := names + [d[f].name];
      values := values[d[f].name := value];
    }
  }

  // Emit the named texts in the order of the names.
  method EmitNamed(names: seq<string>, values: map<string, string>, ghost fs: seq<Field>) returns (text: string)
    requires names == Names(fs)
    requires forall k :: 0 <= k < |fs| ==> fs[k].name in values && values[fs[k].name] == ScalarText(fs[k].value)
    ensures text == Object(fs)
  {
    text := "{";
    for k := 0 to |names|
      invariant text == "{" + Joined(fs[..k])
    {
      assert names[k] == fs[k].name;
      var key := JsonString(names[k]);
      text := EmitMember(text, Joined(fs[..k]), k > 0, key, values[names[k]]);
      JoinedAppend(fs, k);
    }
    assert fs[..|names|] == fs;
    text := text + "}";
  }

  // Reflect over the fields in declaration order, sort the names, and emit in that order.
  method CanonicalObject(d: seq<Field>, ghost fs: seq<Field>) returns (text: string)
    requires Distinct(Names(d)) && Sort(Names(d), StringLe) == Names(fs)
    requires forall f :: f in fs ==> f in d
    ensures text == Object(fs)
  {
    var names, values := Reflect(d);
    names := Sort(names, StringLe);
    forall k | 0 <= k < |fs| ensures fs[k].name in values && values[fs[k].name] == ScalarText(fs[k].value) {
      assert fs[k] in fs;
    }
    text := EmitNamed(names, values, fs);
  }

  method EmitMember(text: string, ghost members: string, more: bool, key: string, value: string) returns (r: string)
    requires text == "{" + members
    ensures r == "{" + (members + (if more then "," else "") + (key + ":" + value))
  {
    r := text;
    if more {
      r := r + ",";
    }
    r := r + key + ":" + value;
  }

  lemma {:induction false} RestAppend(fs: seq<Field>, f: Field)
    ensures Rest(fs + [f]) == Rest(fs) + ("," + Member(f))
  {
    if fs == [] {
      assert fs + [f] == [f];
      assert Rest([]) == "";
    } else {
      assert (fs + [f])[1..] == fs[1..] + [f];
      RestAppend(fs[1..], f);
      Assoc("," + Member(fs[0]), Rest(fs[1..]), "," + Member(f));
    }
  }

  lemma JoinedAppend(fs: seq<Field>, k: nat)
    requires k < |fs|
    ensures Joined(fs[..k + 1]) == Joined(fs[..k]) + (if k > 0 then "," else "") + Member(fs[k])
  {
    if k == 0 {
      assert fs[..1][1..] == [];
    } else {
      var tail := fs[..k][1..];
      assert fs[..k + 1][1..] == tail + [fs[k]];
      RestAppend(tail, fs[k]);
      Assoc(Member(fs[0]), Rest(tail), "," + Member(fs[k]));
      Assoc(Joined(fs[..k]), ",", Member(fs[k]));
    }
  }

  method CanonicalInternal(c: Clock, i: Intent) returns (text: string)
    ensures text == Object(Internal(c, i))
  {
    NamesSort(c, i);
    InternalIsDeclared(c, i);
    text := CanonicalObject(Declared(c, i), Internal(c, i));
  }

  method EmitInOrder(fs: seq<Field>) returns (text: string)
    ensures text == Object(fs)
  {
    text := "{";
    for k := 0 to |fs|
      invariant text == "{" + Joined(fs[..k])
    {
      var key := JsonString(fs[k].name);
      var value := CanonicalValue(fs[k].value);
      text := EmitMember(text, Joined(fs[..k]), k > 0, key, value);
      JoinedAppend(fs, k);
    }
    assert fs[..|fs|] == fs;
    text := text + "}";
  }

  // ----- Reading it back -----

  function ReadScalar(t: string): (r: Option<(Scalar, string)>)
    ensures r.Some? ==> |r.value.1| <= |t|
  {
    if t == "" then None
    else if t[0] == QUOTE then
      match ReadBody(t[1..])
      case Some((s, rest)) => Some((Text(s), rest))
      case None => None
    else if t[0] == '-' || IsDigit(t[0]) then
      var (n, rest) := ReadDecimal(t);
      Some((Number(n), rest))
    else None
  }

  function ReadMember(t: string): (r: Option<(Field, string)>)
    ensures r.Some? ==> |r.value.1| < |t|
  {
    if t == "" || t[0] != QUOTE then None
    else
      match ReadBody(t[1..])
      case None => None
      case Some((name, rest)) =>
        if rest == "" || rest[0] != ':' then None
        else
          match ReadScalar(rest[1..])
          case None => None
          case Some((v, end)) => Some((Field(name, v), end))
  }

  // The members after the first, each behind its comma, and the closing brace.
  function ReadRest(t: string): Option<seq<Field>>
    decreases |t|
  {
    if t == "}" then Some([])
    else if t == "" || t[0] != ',' then None
    else ReadMembers(t[1..])
  }

  function ReadMembers(t: string): Option<seq<Field>>
    decreases |t|
  {
    match ReadMember(t)
    case None => None
    case Some((f, rest)) =>
      match ReadRest(rest)
      case None => None
      case Some(fs) => Some([f] + fs)
  }

  function ReadObject(t: string): Option<seq<Field>> {
    if t == "{}" then Some([]) else if t == "" || t[0] != '{' then None else ReadMembers(t[1..])
  }

  lemma ScalarRead(v: Scalar, rest: string)
    requires rest != "" && !IsDigit(rest[0])
    ensures ReadScalar(ScalarText(v) + rest) == Some((v, rest))
  {
    match v {
      case Text(s) => QuotedRead(s, rest);
      case Number(n) =>
        DecimalRead(n, rest);
        assert (Decimal(n) + rest)[0] == Decimal(n)[0];
    }
  }

  lemma MemberSplit(a: string, b: string, rest: string)
    ensures a + ":" + b + rest == a + (":" + (b + rest))
  {
  }

  lemma MemberRead(f: Field, rest: string)
    requires rest != "" && !IsDigit(rest[0])
    ensures ReadMember(Member(f) + rest) == Some((f, rest))
  {
    var value := ScalarText(f.value) + rest;
    MemberSplit(JsQuote(f.name), ScalarText(f.value), rest);
    QuotedRead(f.name, ":" + value);
    assert (":" + value)[1..] == value;
    ScalarRead(f.value, rest);
  }

  lemma FirstRead(t: string, f: Field, rest: string, fs: seq<Field>)
    requires t == Member(f) + rest && rest != "" && !IsDigit(rest[0]) && ReadRest(rest) == Some(fs)
    ensures ReadMembers(t) == Some([f] + fs)
  {
    MemberRead(f, rest);
  }

  lemma RestOpens(fs: seq<Field>)
    ensures var t := Rest(fs) + "}"; t != "" && (t[0] == '}' || t[0] == ',')
  {
  }

  lemma CommaRead(t: string, body: string, fs: seq<Field>)
    requires t == "," + body && ReadMembers(body) == Some(fs)
    ensures ReadRest(t) == Some(fs)
  {
    assert t[1..] == body;
  }

  lemma CommaSplit(a: string, b: string, c: string)
    ensures "," + a + b + c == "," + (a + (b + c))
  {
  }

  lemma {:induction false} RestRead(fs: seq<Field>)
    ensures ReadRest(Rest(fs) + "}") == Some(fs)
  {
    if fs == [] {
      assert Rest(fs) + "}" == "}";
    } else {
      var after := Rest(fs[1..]) + "}";
      RestRead(fs[1..]);
      RestOpens(fs[1..]);
      FirstRead(Member(fs[0]) + after, fs[0], after, fs[1..]);
      CommaSplit(Member(fs[0]), Rest(fs[1..]), "}");
      CommaRead(Rest(fs) + "}", Member(fs[0]) + after, [fs[0]] + fs[1..]);
      assert fs == [fs[0]] + fs[1..];
    }
  }

  // Every canonical object reads back as the fields it was built from.
  lemma ObjectRead(fs: seq<Field>)
    ensures ReadObject(Object(fs)) == Some(fs)
  {
    if fs != [] {
      var after := Rest(fs[1..]) + "}";
      RestRead(fs[1..]);
      RestOpens(fs[1..]);
      FirstRead(Member(fs[0]) + after, fs[0], after, fs[1..]);
      Assoc(Member(fs[0]), Rest(fs[1..]), "}");
      OpenBrace(Joined(fs));
      assert fs == [fs[0]] + fs[1..];
    }
  }

  lemma OpenBrace(members: string)
    requires members != ""
    ensures var t := "{" + members + "}"; t != "{}" && t[0] == '{' && t[1..] == members + "}"
  {
    assert |"{" + members + "}"| > 2;
  }

  // ----- What the forms bind -----

  // The full form binds every field of the intent.
  lemma InternalBinds(c: Clock, a: Intent, b: Intent)
    requires Faithful(c)
    ensures Object(Internal(c, a)) == Object(Internal(c, b)) <==> a == b
  {
    if Object(Internal(c, a)) == Object(Internal(c, b)) {
      ObjectRead(Internal(c, a));
      ObjectRead(Internal(c, b));
      assert forall k :: 0 <= k < 20 ==> Internal(c, a)[k] == Internal(c, b)[k];
    }
  }

  // The wire form binds its fourteen fields and nothing else; an expiry to the second.
  lemma WireBinds(c: Clock, a: Intent, b: Intent)
    requires Faithful(c)
    ensures Object(Wire(c, a)) == Object(Wire(c, b)) <==>
              && a.agentId == b.agentId && a.amountMicros == b.amountMicros && a.asset == b.asset
              && WholeSeconds(a.expiresAt) == WholeSeconds(b.expiresAt) && a.intentId == b.intentId
              && a.jobId == b.jobId && a.maxAmountMicros == b.maxAmountMicros && a.payTo == b.payTo
              && a.network == b.network && a.nonce == b.nonce && a.policyVersion == b.policyVersion
              && a.purpose == b.purpose && a.resourceUrl == b.resourceUrl && a.taskId == b.taskId
  {
    if Object(Wire(c, a)) == Object(Wire(c, b)) {
      ObjectRead(Wire(c, a));
      ObjectRead(Wire(c, b));
      assert forall k :: 0 <= k < 14 ==> Wire(c, a)[k] == Wire(c, b)[k];
      DecimalInjective(a.amountMicros, b.amountMicros);
      DecimalInjective(a.maxAmountMicros, b.maxAmountMicros);
    }
  }

  // What a reader of the full form finds: under each of the twenty names the field of that name.
  lemma InternalTells(c: Clock, i: Intent)
    ensures ReadObject(Object(Internal(c, i))) == Some(
              [Field("AgentID", Text(i.agentId)), Field("AlternativeTo", Text(i.alternativeTo)),
               Field("AmountMicros", Number(i.amountMicros)), Field("Asset", Text(i.asset)),
               Field("ChainRef", Text(i.chainRef)), Field("ExpiresAt", Text(c.nanos(i.expiresAt))),
               Field("IntentID", Text(i.intentId)), Field("JobID", Text(i.jobId)), Field("Kind", Text(i.kind)),
               Field("MaxAmountMicros", Number(i.maxAmountMicros)), Field("Merchant", Text(i.merchant)),
               Field("Network", Text(i.network)), Field("Nonce", Text(i.nonce)), Field("OrgID", Text(i.orgId)),
               Field("PayTo", Text(i.payTo)), Field("PolicyVersion", Text(i.policyVersion)),
               Field("Purpose", Text(i.purpose)), Field("Resource", Text(i.resource)),
               Field("ResourceURL", Text(i.resourceUrl)), Field("TaskID", Text(i.taskId))])
  {
    ObjectRead(Internal(c, i));
  }

  // And of the wire form: the payee as its merchant, the probed URL as its resource, amounts as text.
  lemma WireTells(c: Clock, i: Intent)
    ensures ReadObject(Object(Wire(c, i))) == Some(
              [Field("agentId", Text(i.agentId)), Field("amount", Text(Decimal(i.amountMicros))),
               Field("asset", Text(i.asset)), Field("expiresAt", Text(c.seconds(i.expiresAt))),
               Field("intentId", Text(i.intentId)), Field("jobId", Text(i.jobId)),
               Field("maxAmount", Text(Decimal(i.maxAmountMicros))), Field("merchant", Text(i.payTo)),
               Field("network", Text(i.network)), Field("nonce", Text(i.nonce)),
               Field("policyVersion", Text(i.policyVersion)), Field("purpose", Text(i.purpose)),
               Field("resource", Text(i.resourceUrl)), Field("taskId", Text(i.taskId))])
  {
    ObjectRead(Wire(c, i));
  }

  // Under a digest without collisions the approval hash is the intent.
  lemma HashBinds(c: Clock, digest: string -> string)
    requires Faithful(c) && forall s, t :: digest(s) == digest(t) ==> s == t
    ensures forall a, b :: digest(Object(Internal(c, a))) == digest(Object(Internal(c, b))) ==> a == b
  {
    forall a, b | digest(Object(Internal(c, a))) == digest(Object(Internal(c, b))) ensures a == b {
      InternalBinds(c, a, b);
    }
  }
}
