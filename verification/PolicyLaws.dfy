/**
  What the policy decides, in its own words: which environment a call is taken to be in,
  and, for the shipped data, exactly which calls are allowed and which need an approval.
 */
module PolicyLaws {
  import opened Options
  import opened Json
  import opened Policy

  // -------------------------------------------------------------- dict access

  /** A dict gives the value that its key has, and null for a key that it has not. */
  lemma {:induction false} GetIs(fields: seq<Field>, key: string, value: Value)
    requires DistinctKeys(fields)
    ensures Field(key, value) in fields ==> Get(fields, key) == value
    ensures (forall f :: f in fields ==> f.key != key) ==> Get(fields, key) == Null
  {
    if fields != [] {
      assert fields == [fields[0]] + fields[1..];
      assert forall f :: f in fields[1..] ==> f.key != fields[0].key;
      GetIs(fields[1..], key, value);
    }
  }

  // The values that count as false.
  predicate Falsy(v: Value) {
    v in {Null, Bool(false), Int(0), Str(""), Arr([]), Obj([])}
  }

  // ------------------------------------------------------------- environment

  predicate Begins(v: Value, prefix: string) {
    v.Str? && |prefix| <= |v.s| && forall i :: 0 <= i < |prefix| ==> v.s[i] == prefix[i]
  }

  /** The environment is the one whose name the namespace begins with; only a true value that is no string has none. */
  lemma EnvironmentIs(arguments: seq<Field>)
    ensures var ns, env := Get(arguments, "namespace"), InferEnvironment(arguments);
            && (env == Some("prod") <==> Begins(ns, "prod"))
            && (env == Some("staging") <==> Begins(ns, "staging"))
            && (env == Some("dev") <==> Begins(ns, "dev"))
            && (env == None <==> !Falsy(ns) && !ns.Str?)
            && (env.Some? ==> env.value in {"prod", "staging", "dev", "unknown"})
  {
    var ns := Get(arguments, "namespace");
    TruthIs(ns);
    BeginsIs(ns, "prod");
    BeginsIs(ns, "staging");
    BeginsIs(ns, "dev");
    assert Begins(ns, "prod") ==> ns.s[0] == 'p';
    assert Begins(ns, "staging") ==> ns.s[0] == 's';
    assert Begins(ns, "dev") ==> ns.s[0] == 'd';
  }

  lemma TruthIs(v: Value)
    ensures Truthy(v) <==> !Falsy(v)
  {
  }

  lemma BeginsIs(v: Value, prefix: string)
    ensures v.Str? ==> (StartsWith(v.s, prefix) <==> Begins(v, prefix))
  {
    if v.Str? && Begins(v, prefix) {
      assert v.s[..|prefix|] == prefix;
    }
  }

  // -------------------------------------------------------- the shipped data

  // The tools of each role.
  predicate Granted(role: string, tool: string) {
    || (role == "sre1" &&
        tool in {"get_pod_logs", "list_pods", "get_deployment_status", "restart_deployment", "scale_deployment",
                 "read_prometheus_metrics", "exec_into_pod", "apply_k8s_manifest"})
    || (role == "readonly" &&
        tool in {"get_pod_logs", "list_pods", "get_deployment_status", "query_terraform_plan",
                 "get_jenkins_job_status", "read_prometheus_metrics", "read_ticket"})
    || (role == "deploy-bot" &&
        tool in {"restart_deployment", "scale_deployment", "trigger_jenkins_job", "get_jenkins_job_status",
                 "query_terraform_plan"})
  }

  predicate BlockedOn(tool: string, namespace: Value) {
    tool in {"restart_deployment", "exec_into_pod", "apply_k8s_manifest"} && namespace == Str("kube-system")
  }

  /**
    The shipped policy allows a call exactly when the role is granted the tool, the
    environment is not prod for the deploy bot, and the tool is not blocked on that
    namespace; and asks for an approval exactly when the call is allowed and is a shell or
    a manifest anywhere, or a restart or a scaling in prod.
   */
  lemma ShippedPolicy(i: OpaInput)
    ensures Allow(DATA, i) <==>
              && Granted(i.role, i.toolName) && !BlockedOn(i.toolName, i.namespace)
              && (i.environment in {"unknown", "dev", "staging"} || (i.environment == "prod" && i.role != "deploy-bot"))
    ensures RequireApproval(DATA, i) <==>
              && Allow(DATA, i)
              && (|| i.toolName in {"exec_into_pod", "apply_k8s_manifest"}
                  || (i.toolName in {"restart_deployment", "scale_deployment"} && i.environment == "prod"))
  {
    ShippedRoles(i.role, i.toolName);
  }

  lemma ShippedRoles(role: string, tool: string)
    ensures role in DATA.roles <==> role in {"sre1", "readonly", "deploy-bot"}
    ensures Granted(role, tool) <==> role in DATA.roles && tool in DATA.roles[role].allowedTools
    ensures role in DATA.roles ==> "*" in DATA.roles[role].allowedNamespaces
    ensures forall env :: role in DATA.roles ==>
              (env in DATA.roles[role].allowedEnvironments <==>
               env in {"dev", "staging"} || (env == "prod" && role != "deploy-bot"))
  {
  }

  /**
    For any data: a role that is not in it may do nothing; one that is, what its lists say,
    but for the tools blocked on kube-system. Approvals are asked for allowed calls only.
   */
  lemma AnyData(d: PolicyData, i: OpaInput)
    ensures Allow(d, i) <==>
              && i.role in d.roles
              && var c := d.roles[i.role];
              && i.toolName in c.allowedTools
              && i.environment in {"unknown"} + c.allowedEnvironments
              && (i.namespace == Null || "*" in c.allowedNamespaces
                  || exists n :: n in c.allowedNamespaces && i.namespace == Str(n))
              && (i.namespace == Str("kube-system") ==> i.toolName !in d.kubeSystemBlockedTools)
    ensures RequireApproval(d, i) <==>
              && Allow(d, i)
              && (|| i.toolName in d.alwaysRequireApprovalTools
                  || (i.toolName in d.destructiveTools && i.environment == "prod"))
  {
  }
}
