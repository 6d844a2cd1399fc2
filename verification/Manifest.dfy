/**
  apply_k8s_manifest: the checks on a manifest and the rewriting of its namespace,
  up to the one call it makes to the cluster.
 */
module Manifest {
  import opened Options
  import opened Json
  import opened AuditRow
  import opened Policy
  import opened PolicyLaws
  import opened Gateway
  import opened GatewayRuns
  import opened GatewaySafety

  // The server-side apply that is sent.
  datatype Apply = Apply(body: seq<Field>, name: Value, namespace: Value)

  // `Raised` is an exception other than the executor's own.
  datatype Outcome = Rejected(errorType: ErrorType) | Raised | Sent(apply: Apply)

  // What looking up the kind on the cluster comes to.
  datatype Resource = Failed(errorType: ErrorType) | Found(namespaced: bool)

  // What checking the `reason` argument comes to; None when it is in order.
  type ReasonCheck = Option<Outcome>

  // `x.get("metadata") or {}`; None when that is no dict.
  function Metadata(manifest: seq<Field>): Option<seq<Field>> {
    var metadata := Get(manifest, "metadata");
    if !Truthy(metadata) then Some([])
    else if metadata.Obj? then Some(metadata.fields)
    else None
  }

  function Rewritten(manifest: seq<Field>, metadata: seq<Field>, namespace: Value): seq<Field> {
    Put(manifest, Field("metadata", Obj(Put(metadata, Field("namespace", namespace)))))
  }

  function ApplyManifest(arguments: seq<Field>, reason: ReasonCheck, resource: Resource): Outcome {
    var namespace, manifest := Namespace(arguments), Get(arguments, "manifest");
    if !Truthy(namespace) || !manifest.Obj? then Rejected(ValidationError)
    else if reason.Some? then reason.value
    else if !Truthy(Get(manifest.fields, "apiVersion")) || !Truthy(Get(manifest.fields, "kind")) then
      Rejected(ValidationError)
    else
      match Metadata(manifest.fields)
      case None => Raised
      case Some(metadata) =>
        var name, own := Get(metadata, "name"), Get(metadata, "namespace");
        if !Truthy(name) then Rejected(ValidationError)
        else if Truthy(own) && own != namespace then Rejected(ValidationError)
        else
          match resource
          case Failed(t) => Rejected(t)
          case Found(namespaced) =>
            if !namespaced then Rejected(ValidationError)
            else Sent(Apply(Rewritten(manifest.fields, metadata, namespace), name, namespace))
  }

  // ---------------------------------------------------------- dict overwriting

  lemma {:induction false} GetPut(fields: seq<Field>, f: Field, key: string)
    ensures Get(Put(fields, f), key) == if key == f.key then f.value else Get(fields, key)
  {
    if fields != [] && fields[0].key != f.key {
      GetPut(fields[1..], f, key);
      assert Put(fields, f)[1..] == Put(fields[1..], f);
    } else if fields != [] {
      assert Put(fields, f)[1..] == fields[1..];
    }
  }

  // The manifest as it came: its metadata, none if that is missing or empty.
  function Own(manifest: seq<Field>): seq<Field> {
    if Metadata(manifest).Some? then Metadata(manifest).value else []
  }

  /**
    What is sent goes to the namespace of the arguments, in the request and in the
    manifest's metadata; a manifest that names another one is not sent; nothing else in
    it changes.
   */
  lemma OnlyNamespaceIsSet(arguments: seq<Field>, reason: ReasonCheck, resource: Resource, key: string)
    requires reason.Some? ==> !reason.value.Sent?
    requires ApplyManifest(arguments, reason, resource).Sent?
    ensures var a := ApplyManifest(arguments, reason, resource).apply;
            var manifest := Get(arguments, "manifest").fields;
            && a.namespace == Namespace(arguments) && Truthy(a.namespace)
            && Get(a.body, "metadata").Obj?
            && var metadata := Get(a.body, "metadata").fields;
            && Get(metadata, "namespace") == Namespace(arguments)
            && Get(metadata, "name") == a.name && Truthy(a.name)
            && (key != "metadata" ==> Get(a.body, key) == Get(manifest, key))
            && (key != "namespace" ==> Get(metadata, key) == Get(Own(manifest), key))
            && (Truthy(Get(Own(manifest), "namespace")) ==> Get(Own(manifest), "namespace") == Namespace(arguments))
  {
    var manifest := Get(arguments, "manifest").fields;
    var namespace := Namespace(arguments);
    var metadata := Own(manifest);
    var f := Field("metadata", Obj(Put(metadata, Field("namespace", namespace))));
    GetPut(manifest, f, key);
    GetPut(manifest, f, "metadata");
    GetPut(metadata, Field("namespace", namespace), key);
    GetPut(metadata, Field("namespace", namespace), "namespace");
    GetPut(metadata, Field("namespace", namespace), "name");
  }

  // All that the checks demand of a call, but for the kind that the cluster knows.
  predicate Applicable(arguments: seq<Field>) {
    var ns, manifest := Get(arguments, "namespace"), Get(arguments, "manifest");
    && !Falsy(ns) && manifest.Obj?
    && !Falsy(Get(manifest.fields, "apiVersion")) && !Falsy(Get(manifest.fields, "kind"))
    && var metadata := Get(manifest.fields, "metadata");
    && (Falsy(metadata) || metadata.Obj?)
    && var own := if Falsy(metadata) then [] else metadata.fields;
    && !Falsy(Get(own, "name"))
    && (Falsy(Get(own, "namespace")) || Get(own, "namespace") == ns)
  }

  // The reason is looked at, and is not in order.
  predicate ReasonFails(arguments: seq<Field>, reason: ReasonCheck) {
    !Falsy(Get(arguments, "namespace")) && Get(arguments, "manifest").Obj? && reason.Some?
  }

  /**
    A manifest is sent exactly when it has a version, a kind and a name, and no other
    namespace than the call, with a reason in order, for a kind that the cluster knows as a
    namespaced one. What the cluster does not know is refused as it says, metadata that is
    no dict raises, and all else is a validation error.
   */
  lemma SentIff(arguments: seq<Field>, reason: ReasonCheck, resource: Resource)
    requires reason.Some? ==> !reason.value.Sent?
    ensures var outcome := ApplyManifest(arguments, reason, resource);
            && (outcome.Sent? <==> Applicable(arguments) && reason.None? && resource == Found(true))
            && (Applicable(arguments) && reason.None? && resource.Failed? ==> outcome == Rejected(resource.errorType))
            && (ReasonFails(arguments, reason) ==> outcome == reason.value)
            && (outcome == Raised && !ReasonFails(arguments, reason) <==>
                  var ns, manifest := Get(arguments, "namespace"), Get(arguments, "manifest");
                  && !Falsy(ns) && manifest.Obj? && reason.None?
                  && !Falsy(Get(manifest.fields, "apiVersion")) && !Falsy(Get(manifest.fields, "kind"))
                  && var metadata := Get(manifest.fields, "metadata");
                     !Falsy(metadata) && !metadata.Obj?)
            && (outcome.Rejected? && !ReasonFails(arguments, reason)
                  && !(Applicable(arguments) && reason.None? && resource.Failed?) ==>
                  outcome.errorType == ValidationError)
  {
    hide Truthy, Falsy;
    forall v ensures Truthy(v) <==> !Falsy(v) {
      TruthIs(v);
    }
  }

  lemma {:induction false} PutAgain(fields: seq<Field>, f: Field)
    ensures Put(Put(fields, f), f) == Put(fields, f)
  {
    if fields != [] && fields[0].key != f.key {
      PutAgain(fields[1..], f);
      assert Put(fields, f)[1..] == Put(fields[1..], f);
    }
  }

  /** What was sent is settled: given as the manifest again, it is sent as it is. */
  lemma SentAgain(arguments: seq<Field>, resource: Resource)
    requires ApplyManifest(arguments, None, resource).Sent?
    ensures var a := ApplyManifest(arguments, None, resource).apply;
            ApplyManifest(Put(arguments, Field("manifest", Obj(a.body))), None, resource) == Sent(a)
  {
    hide Truthy;
    var manifest := Get(arguments, "manifest").fields;
    var metadata := Own(manifest);
    var a := ApplyManifest(arguments, None, resource).apply;
    var settled := Put(metadata, Field("namespace", a.namespace));
    var again := Field("manifest", Obj(a.body));
    GetPut(arguments, again, "namespace");
    GetPut(arguments, again, "manifest");
    forall key ensures Get(a.body, key) == if key == "metadata" then Obj(settled) else Get(manifest, key) {
      GetPut(manifest, Field("metadata", Obj(settled)), key);
    }
    GetPut(metadata, Field("namespace", a.namespace), "name");
    GetPut(metadata, Field("namespace", a.namespace), "namespace");
    PutAgain(metadata, Field("namespace", a.namespace));
    PutAgain(manifest, Field("metadata", Obj(settled)));
    assert settled != [];
    assert Metadata(a.body) == Some(settled) by {
      assert Truthy(Obj(settled)) by {
        TruthyObj(settled);
      }
    }
  }

  lemma TruthyObj(fields: seq<Field>)
    ensures Truthy(Obj(fields)) <==> fields != []
  {
  }

  /**
    With the shipped policy data, in every run of the gateway: each manifest sent to the
    cluster follows an approval of these very arguments, given in time, and goes to the
    approved namespace, which is not kube-system, whatever the manifest itself says.
   */
  lemma ManifestsAreApproved(events: seq<Event>, k: nat, reason: ReasonCheck, resource: Resource)
    requires IsRun(DATA, events) && k < |After(DATA, events).trace|
    requires After(DATA, events).trace[k].toolName == "apply_k8s_manifest"
    requires reason.Some? ==> !reason.value.Sent?
    requires ApplyManifest(After(DATA, events).trace[k].arguments, reason, resource).Sent?
    ensures var s := After(DATA, events);
            var run := s.trace[k];
            var a := ApplyManifest(run.arguments, reason, resource).apply;
            && RanOnApproval(DATA, events, run)
            && a.namespace.Str? && a.namespace.s != "kube-system"
            && a.namespace == Namespace(s.requests[run.via.id].approval.arguments)
            && Get(a.body, "metadata").Obj? && Get(Get(a.body, "metadata").fields, "namespace") == a.namespace
  {
    hide After, IsRun, DATA, TOOLS, Allow, NeedsApproval, ApplyManifest;
    var run := After(DATA, events).trace[k];
    DangerousRuns(events, k);
    OnlyNamespaceIsSet(run.arguments, reason, resource, "metadata");
  }
}
