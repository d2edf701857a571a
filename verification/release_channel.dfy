/** Classification of the Expo release channel into a deployment
    environment (rn-constants.js). */
module ReleaseChannel {
  import opened JsValues
  import opened Strings
  import opened Deployment

  /** `getEnvironment(releaseChannel)`. An undefined channel is the
      development default; otherwise "prod" is searched before "staging",
      and a channel containing neither falls off the end of the function,
      which yields `undefined` (here `None`), not `Dev`. */
  function GetEnvironment(channel: Option<string>): (r: Option<Env>)
    ensures r == Some(Dev) <==> channel.None?
    ensures r == Some(Production) <==> channel.Some? && Contains(channel.value, "prod")
    ensures r == Some(Staging) <==>
      channel.Some? && !Contains(channel.value, "prod") && Contains(channel.value, "staging")
    ensures r.None? <==>
      channel.Some? && !Contains(channel.value, "prod") && !Contains(channel.value, "staging")
  {
    if channel.None? then Some(Dev)
    else if IndexOf(channel.value, "prod") != -1 then Some(Production)
    else if IndexOf(channel.value, "staging") != -1 then Some(Staging)
    else None
  }

  /** Any channel with "prod" somewhere in it, such as "prod-v1" or
      "prod-v2", is production. */
  lemma ProdAnywhereIsProduction(before: string, after: string)
    ensures GetEnvironment(Some(before + "prod" + after)) == Some(Production)
  {
    ContainsInfix(before, "prod", after);
  }

  /** "prod" is checked first: a channel naming both environments is production. */
  lemma ProdBeatsStaging(a: string, b: string, c: string)
    ensures GetEnvironment(Some(a + "staging" + b + "prod" + c)) == Some(Production)
  {
    assert a + "staging" + b + "prod" + c == (a + "staging" + b) + "prod" + c;
    ContainsInfix(a + "staging" + b, "prod", c);
  }

  /** A channel with "staging" in it and no "prod" is staging. */
  lemma StagingWithoutProdIsStaging(before: string, after: string)
    requires !Contains(before + "staging" + after, "prod")
    ensures GetEnvironment(Some(before + "staging" + after)) == Some(Staging)
  {
    ContainsInfix(before, "staging", after);
  }

  /** A concrete unclassifiable channel: "default" names no environment. */
  lemma DefaultChannelIsUnclassified()
    ensures GetEnvironment(Some("default")).None?
    ensures GetEnvironment(Some("default")) != GetEnvironment(None)
  {
    LacksFirstCharacter("default", "prod");
    LacksFirstCharacter("default", "staging");
  }
}
