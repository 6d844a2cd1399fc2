/**
  From a tools/call request to a policy decision: the interceptor, the Rego
  policy with its data, and the reading of OPA's reply.
 */
module Policy {
  import opened Options
  import opened Json

  // -------------------------------------------------------------- dict access

  // `fields.get(key)`
  function Get(fields: seq<Field>, key: string): Value {
    if fields == [] then Null
    else if fields[0].key == key then fields[0].value
    else Get(fields[1..], key)
  }

  // Python truth of a value.
  predicate Truthy(v: Value) {
    match v
    case Null => false
    case Bool(b) => b
    case Int(n) => n != 0
    case Str(s) => s != ""
    case Arr(items) => items != []
    case Obj(fields) => fields != []
    case Opaque(_) => true
  }

  // -------------------------------------------------------------- interceptor

  datatype Agent = Agent(id: string, role: string, allowedTools: set<string>)

  datatype Intercepted =
    | MissingParam(field: string)
    | Context(toolName: Value, arguments: seq<Field>)

  function InterceptToolCall(params: seq<Field>): Intercepted {
    var name, arguments := Get(params, "name"), Get(params, "arguments");
    if !Truthy(name) then MissingParam("name")
    else if arguments.Null? then Context(name, [])
    else if arguments.Obj? then Context(name, arguments.fields)
    else MissingParam("arguments")
  }

  predicate StartsWith(s: string, prefix: string) {
    prefix <= s
  }

  function Namespace(arguments: seq<Field>): Value {
    Get(arguments, "namespace")
  }

  // `None` when the namespace is a true value that is no string: reading it raises.
  function InferEnvironment(arguments: seq<Field>): Option<string> {
    var namespace := Namespace(arguments);
    if !Truthy(namespace) then Some("unknown")
    else if !namespace.Str? then None
    else if StartsWith(namespace.s, "prod") then Some("prod")
    else if StartsWith(namespace.s, "staging") then Some("staging")
    else if StartsWith(namespace.s, "dev") then Some("dev")
    else Some("unknown")
  }

  datatype OpaInput = OpaInput(role: string, toolName: string, namespace: Value, environment: string)

  // --------------------------------------------------------------------- rego

  datatype RoleConfig = RoleConfig(
    allowedTools: set<string>,
    allowedEnvironments: set<string>,
    allowedNamespaces: set<string>)

  datatype PolicyData = PolicyData(
    roles: map<string, RoleConfig>,
    destructiveTools: set<string>,
    alwaysRequireApprovalTools: set<string>,
    kubeSystemBlockedTools: set<string>)

  // An unknown role leaves role_config undefined, and every rule that reads it.
  predicate ToolAllowed(d: PolicyData, i: OpaInput) {
    i.role in d.roles && i.toolName in d.roles[i.role].allowedTools
  }

  predicate EnvironmentAllowed(d: PolicyData, i: OpaInput) {
    i.environment == "unknown" || (i.role in d.roles && i.environment in d.roles[i.role].allowedEnvironments)
  }

  predicate NamespaceAllowed(d: PolicyData, i: OpaInput) {
    || i.namespace.Null?
    || (i.role in d.roles && "*" in d.roles[i.role].allowedNamespaces)
    || (i.role in d.roles && i.namespace.Str? && i.namespace.s in d.roles[i.role].allowedNamespaces)
  }

  predicate KubeSystemBlocked(d: PolicyData, i: OpaInput) {
    i.toolName in d.kubeSystemBlockedTools && i.namespace == Str("kube-system")
  }

  predicate Allow(d: PolicyData, i: OpaInput) {
    ToolAllowed(d, i) && EnvironmentAllowed(d, i) && NamespaceAllowed(d, i) && !KubeSystemBlocked(d, i)
  }

  predicate RequireApproval(d: PolicyData, i: OpaInput) {
    || (Allow(d, i) && i.toolName in d.destructiveTools && i.environment == "prod")
    || (Allow(d, i) && i.toolName in d.alwaysRequireApprovalTools)
  }

  const DATA := PolicyData(
    map[
      "sre1" := RoleConfig(
        {"get_pod_logs", "list_pods", "get_deployment_status", "restart_deployment", "scale_deployment",
         "read_prometheus_metrics", "exec_into_pod", "apply_k8s_manifest"},
        {"dev", "staging", "prod"}, {"*"}),
      "readonly" := RoleConfig(
        {"get_pod_logs", "list_pods", "get_deployment_status", "query_terraform_plan", "get_jenkins_job_status",
         "read_prometheus_metrics", "read_ticket"},
        {"dev", "staging", "prod"}, {"*"}),
      "deploy-bot" := RoleConfig(
        {"restart_deployment", "scale_deployment", "trigger_jenkins_job", "get_jenkins_job_status",
         "query_terraform_plan"},
        {"dev", "staging"}, {"*"})],
    {"restart_deployment", "scale_deployment", "trigger_jenkins_job"},
    {"exec_into_pod", "apply_k8s_manifest"},
    {"restart_deployment", "exec_into_pod", "apply_k8s_manifest"})

  // ---------------------------------------------------------------- opa client

  datatype OpaReply = Unavailable | Reply(allow: bool, requireApproval: bool)

  datatype PolicyDecision = PolicyDecision(allow: bool, requireApproval: bool, reason: string)

  // Any failure to get a reply denies.
  function EvaluatePolicy(toolName: string, reply: OpaReply): PolicyDecision {
    match reply
    case Unavailable => PolicyDecision(false, false, "policy engine unavailable")
    case Reply(allow, requireApproval) =>
      PolicyDecision(allow, requireApproval,
        if requireApproval then "'" + toolName + "' is a destructive action in prod and requires approval"
        else if allow then "allowed by OPA policy"
        else "denied by OPA policy")
  }

  function AskOpa(d: PolicyData, up: bool, i: OpaInput): OpaReply {
    if up then Reply(Allow(d, i), RequireApproval(d, i)) else Unavailable
  }
}
