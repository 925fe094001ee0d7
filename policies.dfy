/** The framework's inclusion policies, kept abstract: which policy object
    a configuration holds for nodes, node properties, relationships and
    relationship properties. What a policy admits is decided by the
    framework and enters the model as a predicate. */
module Policies {
  datatype Policy =
    | AllBusiness   // everything except framework-internal entities
    | IncludeNone   // IncludeNoRelationships and friends
    | Custom(name: string)

  datatype InclusionPolicies = InclusionPolicies(
    nodes: Policy, nodeProperties: Policy, relationships: Policy, relationshipProperties: Policy)

  /** `InclusionPoliciesFactory.allBusiness()`. */
  const AllBusinessPolicies: InclusionPolicies :=
    InclusionPolicies(AllBusiness, AllBusiness, AllBusiness, AllBusiness)
}
