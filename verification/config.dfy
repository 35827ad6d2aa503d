/**
 Construction of an importer (`new CognitoToMailChimp(poolId, apiKey, listId)`):
 the three argument assertions and the region taken from the user-pool id.
 */
module Config {
  import opened Js

  const PoolIdMessage := "Requires AWS UserPoolId."
  const ApiKeyMessage := "Mailchimp ApiKey Required."
  const ListIdMessage := "Mailchimp list ID Required."

  /** The `AssertionError` thrown by `assert.notEqual`, with its message. */
  datatype ConfigError = AssertionError(message: string)

  /** A constructed importer. The directory client is represented only by the
      region it is created for. */
  datatype Importer = Importer(poolId: string, apiKey: string, listId: string, region: string)

  /** `poolId.substring(0, poolId.indexOf('_'))`: the part of the pool id
      before its first underscore, and empty when there is none (the -1 end
      index is clamped to 0). */
  function Region(poolId: string): (region: string)
    ensures '_' !in region
    ensures region <= poolId
    ensures '_' in poolId ==> |region| < |poolId| && poolId[|region|] == '_'
    ensures '_' !in poolId ==> region == ""
  {
    Substring(poolId, 0, IndexOf(poolId, '_'))
  }

  /** A pool id of the form `<region>_<rest>` yields `<region>`. */
  lemma RegionOfPoolId(region: string, rest: string)
    requires '_' !in region
    ensures Region(region + "_" + rest) == region
  {
    var id := region + "_" + rest;
    IndexOfAfterPrefix(region, "_" + rest, '_');
    assert id == region + ("_" + rest);
    assert id[..|region|] == region;
  }

  /** The constructor: each argument is asserted loosely unequal to
      `undefined`, in the order pool id, API key, list id, and the first
      failing assertion is the error; otherwise `init` stores the three
      strings and derives the region. */
  function Construct(poolId: Arg, apiKey: Arg, listId: Arg): (r: Result<Importer, ConfigError>)
    ensures r.Ok? <==> LooselyDefined(poolId) && LooselyDefined(apiKey) && LooselyDefined(listId)
    ensures !LooselyDefined(poolId) ==> r == Err(AssertionError(PoolIdMessage))
    ensures LooselyDefined(poolId) && !LooselyDefined(apiKey) ==> r == Err(AssertionError(ApiKeyMessage))
    ensures LooselyDefined(poolId) && LooselyDefined(apiKey) && !LooselyDefined(listId) ==> r == Err(AssertionError(ListIdMessage))
    ensures r.Ok? ==> && r.value.poolId == poolId.s
                      && r.value.apiKey == apiKey.s
                      && r.value.listId == listId.s
                      && r.value.region == Region(poolId.s)
  {
    if !LooselyDefined(poolId) then Err(AssertionError(PoolIdMessage))
    else if !LooselyDefined(apiKey) then Err(AssertionError(ApiKeyMessage))
    else if !LooselyDefined(listId) then Err(AssertionError(ListIdMessage))
    else Ok(Importer(poolId.s, apiKey.s, listId.s, Region(poolId.s)))
  }
}
