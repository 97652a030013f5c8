/** Shared value types: optional values, network prefixes, DNS query options. */
module Basics {
  datatype Option<+T> = None | Some(value: T)

  ghost predicate NoRepeats<T>(s: seq<T>) {
    forall i, j :: 0 <= i < j < |s| ==> s[i] != s[j]
  }

  /** An IP address as `netip.Addr` sees it; a prefix whose bits are out of range is not valid. */
  datatype Address = V4(octets: seq<nat>) | V6(octets: seq<nat>)

  datatype Prefix = Prefix(address: Address, bits: nat)

  datatype Strategy = AsIs | PreferIPv4 | PreferIPv6 | IPv4Only | IPv6Only

  datatype Transport = Transport(tag: string, fakeIP: bool)

  /** The options of one exchange (adapter.DNSQueryOptions). `clientSubnet` is None when invalid. */
  datatype QueryOptions = QueryOptions(
    strategy: Strategy,
    disableCache: bool,
    disableOptimisticCache: bool,
    rewriteTTL: Option<nat>,
    timeout: nat,
    clientSubnet: Option<Prefix>,
    removeClientSubnet: bool)

  /** The options a rule action carries (R.RuleActionDNSRouteOptions without its strategy). */
  datatype RouteOptions = RouteOptions(
    disableCache: bool,
    disableOptimisticCache: bool,
    rewriteTTL: Option<nat>,
    timeout: nat,
    clientSubnet: Option<Prefix>,
    removeClientSubnet: bool)

  function ApplyRouteOptions(options: QueryOptions, route: RouteOptions): QueryOptions {
    var subnet := if route.clientSubnet.Some? then route.clientSubnet else options.clientSubnet;
    var remove := if route.clientSubnet.Some? then false else options.removeClientSubnet;
    QueryOptions(
      options.strategy,
      options.disableCache || route.disableCache,
      options.disableOptimisticCache || route.disableOptimisticCache,
      if route.rewriteTTL.Some? then route.rewriteTTL else options.rewriteTTL,
      if route.timeout > 0 then route.timeout else options.timeout,
      if route.removeClientSubnet then None else subnet,
      route.removeClientSubnet || remove)
  }
}
