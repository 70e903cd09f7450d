// The sidecar's half of the wire form (sidecar/src/h3.ts), built by the daemon's payment door
// (daemon/internal/funding/funding.go), and its agreement with the daemon's own.
module SidecarIntent {
  import opened Wrappers
  import opened Intents
  import opened Decimals
  import opened JsonText
  import opened Canonical

  datatype WireIntent = WireIntent(
    intentId: string,
    jobId: string,
    taskId: string,
    agentId: string,
    resource: string,
    network: string,
    asset: string,
    merchant: string,
    amount: string,
    maxAmount: string,
    purpose: string,
    nonce: string,
    decision: string,
    policyVersion: string,
    createdAt: string,
    expiresAt: string)

  datatype Property = Property(key: string, value: string)

  // JSON.stringify of an object of strings, keys in insertion order.
  function Stringify(ps: seq<Property>): string {
    "{" + Properties(ps) + "}"
  }

  function Properties(ps: seq<Property>): string {
    if ps == [] then ""
    else
      var first := JsQuote(ps[0].key) + ":" + JsQuote(ps[0].value);
      if |ps| == 1 then first else first + "," + Properties(ps[1..])
  }

  function CanonicalProperties(i: WireIntent): seq<Property> {
    [Property("agentId", i.agentId), Property("amount", i.amount), Property("asset", i.asset),
     Property("expiresAt", i.expiresAt), Property("intentId", i.intentId), Property("jobId", i.jobId),
     Property("maxAmount", i.maxAmount), Property("merchant", i.merchant), Property("network", i.network),
     Property("nonce", i.nonce), Property("policyVersion", i.policyVersion), Property("purpose", i.purpose),
     Property("resource", i.resource), Property("taskId", i.taskId)]
  }

  function CanonicalIntent(i: WireIntent): string {
    Stringify(CanonicalProperties(i))
  }

  // The body the daemon sends: the payee address and the probed URL under the sidecar's names.
  function ToWire(c: Clock, i: Intent, decision: string, createdAt: string): WireIntent {
    WireIntent(
      i.intentId, i.jobId, i.taskId, i.agentId, i.resourceUrl, i.network, i.asset, i.payTo,
      Decimal(i.amountMicros), Decimal(i.maxAmountMicros), i.purpose, i.nonce, decision, i.policyVersion,
      createdAt, c.seconds(i.expiresAt))
  }

  lemma {:induction false} SameRest(ps: seq<Property>, fs: seq<Field>)
    requires |ps| == |fs| && forall k :: 0 <= k < |ps| ==> fs[k] == Field(ps[k].key, Text(ps[k].value))
    ensures Rest(fs) == if ps == [] then "" else "," + Properties(ps)
  {
    if ps != [] {
      SameRest(ps[1..], fs[1..]);
      if |ps| == 1 {
        assert Rest(fs[1..]) == "";
      } else {
        var first := Member(fs[0]);
        Assoc(",", first, "," + Properties(ps[1..]));
        Assoc(first, ",", Properties(ps[1..]));
      }
    }
  }

  lemma SameObject(ps: seq<Property>, fs: seq<Field>)
    requires |ps| == |fs| && forall k :: 0 <= k < |ps| ==> fs[k] == Field(ps[k].key, Text(ps[k].value))
    ensures Properties(ps) == Joined(fs)
  {
    if ps != [] {
      var tail := ps[1..];
      SameRest(tail, fs[1..]);
      Assoc(Member(fs[0]), ",", Properties(tail));
    }
  }

  // The two programs render corresponding intents alike, character for character, whatever the
  // decision and creation time the form leaves out.
  lemma WireFormsAgree(c: Clock, i: Intent, decision: string, createdAt: string)
    ensures CanonicalIntent(ToWire(c, i, decision, createdAt)) == Object(Wire(c, i))
  {
    SameObject(CanonicalProperties(ToWire(c, i, decision, createdAt)), Wire(c, i));
  }

  // The daemon's rendering, as its loop builds it, is the sidecar's.
  method CanonicalWire(c: Clock, i: Intent) returns (text: string)
    ensures forall decision, createdAt :: text == CanonicalIntent(ToWire(c, i, decision, createdAt))
  {
    text := EmitInOrder(Wire(c, i));
    forall decision, createdAt ensures text == CanonicalIntent(ToWire(c, i, decision, createdAt)) {
      WireFormsAgree(c, i, decision, createdAt);
    }
  }

  // What the sidecar recomputes tells it exactly the fourteen fields.
  lemma SidecarBinds(a: WireIntent, b: WireIntent)
    ensures CanonicalIntent(a) == CanonicalIntent(b) <==>
              b.(decision := a.decision, createdAt := a.createdAt) == a
  {
    var fa, fb := FieldsOf(a), FieldsOf(b);
    SameObject(CanonicalProperties(a), fa);
    SameObject(CanonicalProperties(b), fb);
    if CanonicalIntent(a) == CanonicalIntent(b) {
      ObjectRead(fa);
      ObjectRead(fb);
      FieldsBind(a, b);
    }
  }

  lemma FieldsBind(a: WireIntent, b: WireIntent)
    requires FieldsOf(a) == FieldsOf(b)
    ensures b.(decision := a.decision, createdAt := a.createdAt) == a
  {
    var pa, pb := CanonicalProperties(a), CanonicalProperties(b);
    forall k | 0 <= k < 14 ensures pa[k].value == pb[k].value {
      assert FieldsOf(a)[k] == FieldsOf(b)[k];
    }
    assert pa[0].value == pb[0].value && pa[1].value == pb[1].value && pa[2].value == pb[2].value;
    assert pa[3].value == pb[3].value && pa[4].value == pb[4].value && pa[5].value == pb[5].value;
    assert pa[6].value == pb[6].value && pa[7].value == pb[7].value && pa[8].value == pb[8].value;
    assert pa[9].value == pb[9].value && pa[10].value == pb[10].value && pa[11].value == pb[11].value;
    assert pa[12].value == pb[12].value && pa[13].value == pb[13].value;
  }

  // What a reader of the sidecar's form finds: under each of the fourteen names the property of that
  // name.
  lemma SidecarTells(i: WireIntent)
    ensures ReadObject(CanonicalIntent(i)) == Some(AsFields(
              [Property("agentId", i.agentId), Property("amount", i.amount), Property("asset", i.asset),
               Property("expiresAt", i.expiresAt), Property("intentId", i.intentId), Property("jobId", i.jobId),
               Property("maxAmount", i.maxAmount), Property("merchant", i.merchant),
               Property("network", i.network), Property("nonce", i.nonce),
               Property("policyVersion", i.policyVersion), Property("purpose", i.purpose),
               Property("resource", i.resource), Property("taskId", i.taskId)]))
  {
    SameObject(CanonicalProperties(i), FieldsOf(i));
    ObjectRead(FieldsOf(i));
  }

  function AsFields(ps: seq<Property>): seq<Field> {
    seq(|ps|, k requires 0 <= k < |ps| => Field(ps[k].key, Text(ps[k].value)))
  }

  function FieldsOf(i: WireIntent): seq<Field> {
    AsFields(CanonicalProperties(i))
  }
}
