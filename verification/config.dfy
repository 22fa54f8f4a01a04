/** The parts of a deployment's `hubploy.yaml` the helpers read, and how a
    parameter bag binds to a strategy's keyword parameters. */
module Config {
  import opened Common

  /** A provider's parameter bag, such as `cluster.aws`. */
  type Bag = map<string, string>

  /** The `images.registry` or `cluster` section: its `provider` tag and the
      parameter bags keyed by provider name. */
  datatype Section = Section(provider: Option<string>, bags: map<string, Bag>)

  /** The configuration of one deployment: `images.registry` is present only
      when both `images` and `images.registry` are. */
  datatype Deployment = Deployment(registry: Option<Section>, cluster: Option<Section>)

  /** A keyword parameter with default None. */
  function Param(bag: Bag, name: string): Option<string>
  {
    if name in bag then Some(bag[name]) else None
  }

  /** `strategy(deployment, **bag)` binds exactly when every required parameter
      is in the bag and nothing else is, apart from parameters with a default;
      otherwise the call raises a TypeError. A `deployment` key in the bag is
      never among the parameters, so it does not bind either. */
  predicate Binds(bag: Bag, required: set<string>, optional: set<string>)
  {
    required <= bag.Keys && bag.Keys <= required + optional
  }
}
