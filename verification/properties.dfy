/**
 Properties of the child-object names: how each name can be taken apart
 again, when two names coincide, and the degenerate names of an unnamed
 instance.
 */
module NameProperties {
  import opened Names

  /**
   `ParentName` is exactly the inverse of `NameOf`: it yields an instance
   name precisely when the child name is the one that instance gets.
   */
  lemma ParentNameInverse(role: Role, child: string, instance: Cincinnati)
    ensures ParentName(role, child) == Some(instance.Name)
        <==> role.ParentScoped() && NameOf(role, instance) == child
  {
    if ParentName(role, child) == Some(instance.Name) {
      assert instance.Name + role.Suffix() == child;
    }
  }

  /** A parent-scoped name is the parent's name followed by the role's suffix. */
  lemma NameOfShape(role: Role, instance: Cincinnati)
    ensures role.ParentScoped() ==>
      && NameOf(role, instance) == instance.Name + role.Suffix()
      && |NameOf(role, instance)| == |instance.Name| + |role.Suffix()|
      && NameOf(role, instance)[..|instance.Name|] == instance.Name
    ensures !role.ParentScoped() ==> NameOf(role, instance) == "trusted-ca"
  {
  }

  /**
   For a fixed role the derivation is injective in the instance name; the
   trusted-CA deployment ignores the instance altogether.
   */
  lemma NameOfInjective(role: Role, a: Cincinnati, b: Cincinnati)
    ensures NameOf(role, a) == NameOf(role, b) <==> (role.ParentScoped() ==> a.Name == b.Name)
  {
    if role.ParentScoped() && NameOf(role, a) == NameOf(role, b) {
      assert Some(a.Name) == ParentName(role, NameOf(role, a));
    }
  }

  /** Fields other than the name never influence a derived name. */
  lemma OnlyNameMatters(role: Role, a: Cincinnati, b: Cincinnati)
    requires a.Name == b.Name
    requires a != b
    ensures NameOf(role, a) == NameOf(role, b)
  {
  }

  /** The deployment and the pod-disruption budget share the instance's name. */
  lemma DeploymentIsPodDisruptionBudget(instance: Cincinnati)
    ensures NameDeployment(instance) == NamePodDisruptionBudget(instance) == instance.Name
  {
  }

  /** Roles whose child carries the instance's name unchanged. */
  predicate Verbatim(role: Role) {
    role == Deployment || role == PodDisruptionBudget
  }

  /**
   When two roles give one instance the same child name: the same role,
   the deployment and the pod-disruption budget, or, for an instance named
   "trusted-ca" only, either of those two and the trusted-CA deployment.
   */
  predicate SharedName(r1: Role, r2: Role, name: string) {
    || r1 == r2
    || (Verbatim(r1) && Verbatim(r2))
    || (name == "trusted-ca" && Verbatim(r1) && r2 == DeploymentTrustedCA)
    || (name == "trusted-ca" && r1 == DeploymentTrustedCA && Verbatim(r2))
  }

  /** Two suffixed names of one instance agree only when the suffixes do. */
  lemma SameSuffix(r1: Role, r2: Role, instance: Cincinnati)
    requires r1.ParentScoped() && r2.ParentScoped()
    requires NameOf(r1, instance) == NameOf(r2, instance)
    ensures r1.Suffix() == r2.Suffix()
  {
    var n := instance.Name;
    var c := NameOf(r1, instance);
    assert c == n + r1.Suffix() == n + r2.Suffix();
    assert c[|n|..] == r1.Suffix();
    assert c[|n|..] == r2.Suffix();
  }

  /** No suffixed name of any instance is the trusted-CA deployment's name. */
  lemma SuffixedIsNotTrustedCA(role: Role, instance: Cincinnati)
    requires Suffixed(role)
    ensures NameOf(role, instance) != NameDeploymentTrustedCA()
  {
  }

  /** The names one instance gets for two roles coincide exactly as `SharedName` says. */
  lemma NamesCollideIff(r1: Role, r2: Role, instance: Cincinnati)
    ensures NameOf(r1, instance) == NameOf(r2, instance) <==> SharedName(r1, r2, instance.Name)
  {
    if r1.ParentScoped() && r2.ParentScoped() && NameOf(r1, instance) == NameOf(r2, instance) {
      SameSuffix(r1, r2, instance);
    }
    if Suffixed(r1) {
      SuffixedIsNotTrustedCA(r1, instance);
    }
    if Suffixed(r2) {
      SuffixedIsNotTrustedCA(r2, instance);
    }
  }

  /** Roles whose child carries the instance's name followed by a non-empty suffix. */
  predicate Suffixed(role: Role) {
    role.ParentScoped() && !Verbatim(role)
  }

  /**
   The five suffixed names of one instance are pairwise distinct, and each is
   longer than (so differs from) the deployment and pod-disruption-budget name.
   */
  lemma SuffixedNamesDistinct(instance: Cincinnati)
    ensures forall r1, r2 :: Suffixed(r1) && Suffixed(r2) && r1 != r2 ==> NameOf(r1, instance) != NameOf(r2, instance)
    ensures forall r :: Suffixed(r) ==> |NameOf(r, instance)| > |NameDeployment(instance)|
  {
    forall r1, r2 | Suffixed(r1) && Suffixed(r2) && r1 != r2
      ensures NameOf(r1, instance) != NameOf(r2, instance)
    {
      NamesCollideIff(r1, r2, instance);
    }
  }

  /**
   Two different suffixed roles never share a name, even for two different
   instances: the five suffixes end in five different characters.
   */
  lemma SuffixedRolesNeverCollide(r1: Role, r2: Role, a: Cincinnati, b: Cincinnati)
    requires Suffixed(r1) && Suffixed(r2) && r1 != r2
    ensures NameOf(r1, a) != NameOf(r2, b)
  {
    var x, y := NameOf(r1, a), NameOf(r2, b);
    var s1, s2 := r1.Suffix(), r2.Suffix();
    assert x == a.Name + s1 && y == b.Name + s2;
    assert x[|x| - 1] == s1[|s1| - 1];
    assert y[|y| - 1] == s2[|s2| - 1];
  }

  /**
   Across instances, a name given verbatim collides with a parent-scoped
   name exactly when it is the other instance's name followed by that
   role's suffix.
   */
  lemma VerbatimCollision(r1: Role, r2: Role, a: Cincinnati, b: Cincinnati)
    requires Verbatim(r1) && r2.ParentScoped()
    ensures NameOf(r1, a) == NameOf(r2, b) <==> ParentName(r2, a.Name) == Some(b.Name)
  {
    ParentNameInverse(r2, a.Name, b);
  }

  /** The trusted-CA deployment name is the constant "trusted-ca", whatever the instance. */
  lemma TrustedCADeploymentConstant(a: Cincinnati, b: Cincinnati)
    ensures NameOf(DeploymentTrustedCA, a) == NameOf(DeploymentTrustedCA, b) == "trusted-ca"
    ensures NameOf(DeploymentTrustedCA, a) != NameAdditionalTrustedCA(b)
  {
  }

  /**
   An instance named "trusted-ca" gets a deployment whose name is that of
   the shared trusted-CA deployment.
   */
  lemma TrustedCANamedInstance(instance: Cincinnati)
    requires instance.Name == "trusted-ca"
    ensures NameDeployment(instance) == NameDeploymentTrustedCA()
  {
  }

  /** An unnamed instance is not rejected: it gets the bare suffixes as names. */
  lemma EmptyNameDegenerate(instance: Cincinnati)
    requires instance.Name == ""
    ensures NameDeployment(instance) == NamePodDisruptionBudget(instance) == ""
    ensures NameEnvConfig(instance) == "-env"
    ensures NameConfig(instance) == "-config"
    ensures NamePolicyEngineService(instance) == "-policy-engine"
    ensures NameGraphBuilderService(instance) == "-graph-builder"
    ensures NameAdditionalTrustedCA(instance) == "-trusted-ca"
    ensures NameDeploymentTrustedCA() == "trusted-ca"
  {
  }

  /** The names of an instance called "example". */
  lemma ExampleNames(instance: Cincinnati)
    requires instance.Name == "example"
    ensures NameDeployment(instance) == NamePodDisruptionBudget(instance) == "example"
    ensures NameEnvConfig(instance) == "example-env"
    ensures NameConfig(instance) == "example-config"
    ensures NamePolicyEngineService(instance) == "example-policy-engine"
    ensures NameGraphBuilderService(instance) == "example-graph-builder"
    ensures NameAdditionalTrustedCA(instance) == "example-trusted-ca"
    ensures NameDeploymentTrustedCA() == "trusted-ca"
  {
  }

  /**
   Names are not collision-free across instances: the deployment of an
   instance named "x-config" has the name of the config of an instance "x".
   */
  lemma CrossInstanceCollision(ns: string)
    ensures NameDeployment(Cincinnati("x-config", ns)) == NameConfig(Cincinnati("x", ns))
  {
  }

  /** The container names are pairwise distinct; the configuration namespace is fixed. */
  lemma ContainerNamesDistinct()
    ensures NameContainerGraphBuilder != NameContainerPolicyEngine
    ensures NameContainerGraphBuilder != NameInitContainerGraphData
    ensures NameContainerPolicyEngine != NameInitContainerGraphData
    ensures OpenshiftConfigNamespace == "openshift-config"
  {
  }
}
