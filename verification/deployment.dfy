/** Deployment environments and the per-environment host configuration
    that both client variants select from. */
module Deployment {

  /** The three deployment environments the configuration knows about. */
  datatype Env = Dev | Production | Staging

  /** One host (or URL) per environment: `{production, staging, dev}` as the
      caller passes it in `apiRoot` or `frontendUrl`. */
  datatype Sites = Sites(production: string, staging: string, dev: string)

  /** The entry of `sites` that belongs to environment `e`. */
  function HostFor(sites: Sites, e: Env): (h: string)
    ensures e == Production ==> h == sites.production
    ensures e == Staging ==> h == sites.staging
    ensures e == Dev ==> h == sites.dev
  {
    match e
    case Production => sites.production
    case Staging => sites.staging
    case Dev => sites.dev
  }
}
