/**
 Names of the child objects that the Cincinnati operator owns.

 Every child object of a Cincinnati custom resource is named from the
 resource's own name alone: either the name itself, the name followed by a
 fixed suffix, or (for the trusted-CA deployment) a constant. Nothing is
 validated and nothing can fail, so every derivation is a total function.
 */
module Names {

  datatype Option<+T> = None | Some(value: T)

  /** Container names used inside the operand's pod spec. */
  const NameContainerGraphBuilder: string := "graph-builder"
  const NameContainerPolicyEngine: string := "policy-engine"
  const NameInitContainerGraphData: string := "graph-data"

  /** The namespace that holds the cluster-wide configuration. */
  const OpenshiftConfigNamespace: string := "openshift-config"

  /**
   The Cincinnati custom resource. Only `Name` is read by the derivations;
   `Namespace` stands for every other field of the resource, so that the
   model can state that those fields do not matter.
   */
  datatype Cincinnati = Cincinnati(Name: string, Namespace: string)

  /** One role per child object whose name is derived. */
  datatype Role =
    | Deployment
    | PodDisruptionBudget
    | EnvConfig
    | Config
    | PolicyEngineService
    | GraphBuilderService
    | AdditionalTrustedCA
    | DeploymentTrustedCA
  {
    /** Every role except the trusted-CA deployment is named after its parent. */
    predicate ParentScoped() {
      this != DeploymentTrustedCA
    }

    /** What follows the parent's name in a parent-scoped child name. */
    function Suffix(): string
      requires ParentScoped()
    {
      match this
      case Deployment => ""
      case PodDisruptionBudget => ""
      case EnvConfig => "-env"
      case Config => "-config"
      case PolicyEngineService => "-policy-engine"
      case GraphBuilderService => "-graph-builder"
      case AdditionalTrustedCA => "-trusted-ca"
    }
  }

  /**
   The part of `s` before `suffix`, when `s` ends with `suffix`.
   This is the inverse of appending a suffix and serves as the reference
   against which the derivations are specified.
   */
  function StripSuffix(s: string, suffix: string): (r: Option<string>)
    ensures r.Some? <==> |suffix| <= |s| && s[|s| - |suffix|..] == suffix
    ensures r.Some? ==> r.value + suffix == s
  {
    if |suffix| <= |s| && s[|s| - |suffix|..] == suffix then
      var p := s[..|s| - |suffix|];
      assert p + suffix == s;
      Some(p)
    else
      None
  }

  /**
   The parent name a child of the given role was derived from, if any:
   `None` when `child` cannot be the name of a child in that role, and
   always `None` for the trusted-CA deployment, which has no parent.
   */
  function ParentName(role: Role, child: string): (r: Option<string>)
    ensures r.Some? ==> role.ParentScoped() && r.value + role.Suffix() == child
  {
    if role.ParentScoped() then StripSuffix(child, role.Suffix()) else None
  }

  lemma StripAppended(p: string, suffix: string)
    ensures StripSuffix(p + suffix, suffix) == Some(p)
  {
    var s := p + suffix;
    assert s[|s| - |suffix|..] == suffix;
    assert s[..|s| - |suffix|] == p;
  }

  // The eight derivations, in the order the operator declares them.

  function NameDeployment(instance: Cincinnati): (r: string)
    ensures ParentName(Deployment, r) == Some(instance.Name)
    ensures |r| == |instance.Name|
  {
    StripAppended(instance.Name, "");
    assert instance.Name + "" == instance.Name;
    instance.Name
  }

  function NamePodDisruptionBudget(instance: Cincinnati): (r: string)
    ensures ParentName(PodDisruptionBudget, r) == Some(instance.Name)
    ensures r == NameDeployment(instance)
  {
    StripAppended(instance.Name, "");
    assert instance.Name + "" == instance.Name;
    instance.Name
  }

  function NameEnvConfig(instance: Cincinnati): (r: string)
    ensures ParentName(EnvConfig, r) == Some(instance.Name)
    ensures |r| == |instance.Name| + 4
  {
    StripAppended(instance.Name, "-env");
    instance.Name + "-env"
  }

  function NameConfig(instance: Cincinnati): (r: string)
    ensures ParentName(Config, r) == Some(instance.Name)
    ensures |r| == |instance.Name| + 7
  {
    StripAppended(instance.Name, "-config");
    instance.Name + "-config"
  }

  function NamePolicyEngineService(instance: Cincinnati): (r: string)
    ensures ParentName(PolicyEngineService, r) == Some(instance.Name)
    ensures |r| == |instance.Name| + 14
  {
    StripAppended(instance.Name, "-policy-engine");
    instance.Name + "-policy-engine"
  }

  function NameGraphBuilderService(instance: Cincinnati): (r: string)
    ensures ParentName(GraphBuilderService, r) == Some(instance.Name)
    ensures |r| == |instance.Name| + 14
  {
    StripAppended(instance.Name, "-graph-builder");
    instance.Name + "-graph-builder"
  }

  function NameAdditionalTrustedCA(instance: Cincinnati): (r: string)
    ensures ParentName(AdditionalTrustedCA, r) == Some(instance.Name)
    ensures |r| == |instance.Name| + 11
  {
    StripAppended(instance.Name, "-trusted-ca");
    instance.Name + "-trusted-ca"
  }

  /** The trusted-CA deployment is shared by every instance in a namespace. */
  function NameDeploymentTrustedCA(): (r: string)
    ensures |r| == 10
    ensures forall instance :: NameAdditionalTrustedCA(instance) != r
  {
    "trusted-ca"
  }

  /** Dispatch from a role to its derivation. */
  function NameOf(role: Role, instance: Cincinnati): (r: string)
    ensures ParentName(role, r) == if role.ParentScoped() then Some(instance.Name) else None
  {
    match role
    case Deployment => NameDeployment(instance)
    case PodDisruptionBudget => NamePodDisruptionBudget(instance)
    case EnvConfig => NameEnvConfig(instance)
    case Config => NameConfig(instance)
    case PolicyEngineService => NamePolicyEngineService(instance)
    case GraphBuilderService => NameGraphBuilderService(instance)
    case AdditionalTrustedCA => NameAdditionalTrustedCA(instance)
    case DeploymentTrustedCA => NameDeploymentTrustedCA()
  }
}
