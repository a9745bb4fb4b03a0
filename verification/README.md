# Cincinnati operator: child-object names

This project models how the Cincinnati operator names the Kubernetes objects
it owns on behalf of a Cincinnati custom resource (`pkg/controller/cincinnati/names.go`).
Each name comes from the resource's `Name` alone. The deployment and the
pod-disruption budget take the name unchanged. The env config, the config,
the policy-engine service, the graph-builder service and the additional
trusted-CA config take the name followed by a fixed suffix. The trusted-CA
deployment is always called `trusted-ca`. The file also fixes three container
names and the `openshift-config` namespace.

`names.dfy` (module `Names`) holds the constants, the `Cincinnati` resource
(its `Name`, plus `Namespace` standing for every field the derivations do not
read), one function per derivation, and a `Role` enumeration with a dispatch
function `NameOf`. Each derivation is specified against `ParentName`, which
strips a role's suffix from a child name. That inverse is the reference the
derivations are checked against. `properties.dfy` (module `NameProperties`)
proves these facts:

- the inverse is exact in both directions;
- each name has the instance name as its prefix, and its exact length is known;
- each derivation is injective in the instance name;
- fields other than the name never matter;
- when two roles give one instance the same name;
- the names an empty instance name produces;
- across different instances, two different suffixed roles never collide, but a deployment or pod-disruption-budget name can equal another instance's suffixed name, and the lemmas state exactly when.

The source performs no validation, so the model has no preconditions and no
error path. An empty name yields `""`, `"-env"`, `"-config"` and so on.

The design documentation says the eight names of one instance are pairwise
distinct. The code does not do that, and the model follows the code:

- the deployment and the pod-disruption budget always share the instance's name;
- an instance named `trusted-ca` gets a deployment whose name is that of the
  shared trusted-CA deployment.

`NamesCollideIff` states exactly when two roles' names coincide.

## Model

| member | source | states |
|---|---|---|
| `Names.NameDeployment` | pkg/controller/cincinnati/names.go:18-20 | stripping the (empty) deployment suffix gives back the instance name, and the length equals the name's |
| `Names.NamePodDisruptionBudget` | pkg/controller/cincinnati/names.go:22-24 | the name is recoverable in the same way, and equals the deployment's name |
| `Names.NameEnvConfig` | pkg/controller/cincinnati/names.go:26-28 | the name ends in `-env`, what precedes it is the instance name, and the length is the name's plus 4 |
| `Names.NameConfig` | pkg/controller/cincinnati/names.go:30-32 | the name ends in `-config`, what precedes it is the instance name, and the length is the name's plus 7 |
| `Names.NamePolicyEngineService` | pkg/controller/cincinnati/names.go:34-36 | the name ends in `-policy-engine`, what precedes it is the instance name, and the length is the name's plus 14 |
| `Names.NameGraphBuilderService` | pkg/controller/cincinnati/names.go:38-40 | the name ends in `-graph-builder`, what precedes it is the instance name, and the length is the name's plus 14 |
| `Names.NameAdditionalTrustedCA` | pkg/controller/cincinnati/names.go:42-44 | the name ends in `-trusted-ca`, what precedes it is the instance name, and the length is the name's plus 11 |
| `Names.NameDeploymentTrustedCA` | pkg/controller/cincinnati/names.go:42-48 | the shared name has 10 characters and differs from the additional trusted-CA name of every instance |
| `Names.NameOf` | pkg/controller/cincinnati/names.go:18-48 | for every parent-scoped role, stripping the role's suffix from the result gives back the instance name; the trusted-CA deployment name has no parent |
| `NameProperties.ParentNameInverse` | pkg/controller/cincinnati/names.go:18-48 | stripping a role's suffix yields an instance's name exactly when the child name is that instance's name for the role |
| `NameProperties.NameOfShape` | pkg/controller/cincinnati/names.go:18-48 | a parent-scoped name is the instance name followed by the role's suffix: it has the instance name as prefix and length name plus suffix; otherwise it is `trusted-ca` |
| `NameProperties.NameOfInjective` | pkg/controller/cincinnati/names.go:18-48 | for one role, two instances get equal names exactly when their names are equal (always, for the trusted-CA deployment) |
| `NameProperties.OnlyNameMatters` | pkg/controller/cincinnati/names.go:18-44 | two different instances with the same name get the same name for every role |
| `NameProperties.DeploymentIsPodDisruptionBudget` | pkg/controller/cincinnati/names.go:18-24 | the deployment and the pod-disruption budget both carry the instance name unchanged |
| `NameProperties.SameSuffix` | pkg/controller/cincinnati/names.go:18-44 | two parent-scoped names of one instance are equal only if the roles' suffixes are equal |
| `NameProperties.SuffixedIsNotTrustedCA` | pkg/controller/cincinnati/names.go:26-48 | no suffixed name of any instance equals the trusted-CA deployment name |
| `NameProperties.NamesCollideIff` | pkg/controller/cincinnati/names.go:18-48 | two roles give one instance the same name if and only if they are the same role, both are deployment/pod-disruption budget, or the instance is named `trusted-ca` and the other is the trusted-CA deployment |
| `NameProperties.SuffixedNamesDistinct` | pkg/controller/cincinnati/names.go:18-44 | the five suffixed names of an instance are pairwise distinct and each is longer than the deployment name |
| `NameProperties.SuffixedRolesNeverCollide` | pkg/controller/cincinnati/names.go:26-44 | two different suffixed roles never give the same name, even to two different instances, because the five suffixes end in different characters |
| `NameProperties.VerbatimCollision` | pkg/controller/cincinnati/names.go:18-44 | across instances, a deployment or pod-disruption-budget name equals another instance's parent-scoped name exactly when it is that instance's name followed by the role's suffix |
| `NameProperties.TrustedCADeploymentConstant` | pkg/controller/cincinnati/names.go:42-48 | the trusted-CA deployment name is `trusted-ca` whatever the instance, and never any instance's additional trusted-CA name |
| `NameProperties.TrustedCANamedInstance` | pkg/controller/cincinnati/names.go:18-48 | an instance named `trusted-ca` has a deployment named like the shared trusted-CA deployment |
| `NameProperties.EmptyNameDegenerate` | pkg/controller/cincinnati/names.go:18-48 | an empty instance name is accepted and yields `""`, `-env`, `-config`, `-policy-engine`, `-graph-builder`, `-trusted-ca` |
| `NameProperties.ExampleNames` | pkg/controller/cincinnati/names.go:18-48 | the eight names of an instance called `example` |
| `NameProperties.CrossInstanceCollision` | pkg/controller/cincinnati/names.go:18-32 | the deployment of an instance named `x-config` has the config name of an instance named `x`; no cross-instance guarantee exists |
| `NameProperties.ContainerNamesDistinct` | pkg/controller/cincinnati/names.go:7-16 | the three container names are pairwise distinct, and the configuration namespace is `openshift-config` |

## Left out

- The rest of the `Cincinnati` resource type: the derivations read only `Name`. That type lives in `pkg/apis/cincinnati/v1alpha1`, which is not part of this model. `Namespace` stands in for all other fields.
- The nil pointer: the derivations take a pointer to the resource, and a nil pointer would panic in the Go code. The model takes the resource as a value.
- Byte lengths: Go strings are byte sequences and Dafny strings are character sequences, so the stated lengths count characters. They equal byte counts for ASCII names.
- Kubernetes name validity (DNS-1123 length and character set): the code checks none of it, so the model adds neither a precondition nor sanitising.
- The reconciliation loop, API-server calls and concurrency that use these names: none of it is in the modelled file.
