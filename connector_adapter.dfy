// Provider resolution through the provider registry (src/adapters/connector-adapter.ts).

module ConnectorAdapter {
  import opened Types
  import opened Calls

  /** The registry's two operations: a lookup that may miss, and the default provider. */
  datatype ConnectorHubClient = ConnectorHubClient(
    getProvider: string -> Result<Option<ProviderAdapter>>,
    getDefaultProvider: Result<ProviderAdapter>)

  /**
   * The recommended provider when there is one, the registry knows it and it
   * reports itself available; the registry's default in every other case.
   */
  function ResolveProvider(client: ConnectorHubClient, signal: OptimizationSignal): (s: Step<ProviderAdapter>)
    ensures Served(s.calls, 2) && 1 <= |s.calls| <= 3
    // no (or an empty) recommendation: no lookup, straight to the default
    ensures !Present(signal.recommendedProvider)
            ==> s == Step(client.getDefaultProvider, [GetDefaultProvider])
    ensures Present(signal.recommendedProvider)
            ==> s.calls[0] == GetProvider(signal.recommendedProvider.value)
    // availability is asked at most once, only right after a lookup that found something
    ensures forall i :: 0 <= i < |s.calls| && s.calls[i].IsAvailable? ==>
              && i == 1
              && client.getProvider(s.calls[0].providerId).Ok?
              && client.getProvider(s.calls[0].providerId).value.Some?
              && s.calls[1].providerId == client.getProvider(s.calls[0].providerId).value.value.id
    // whenever the default is asked for, it is returned unchecked, as the last call
    ensures GetDefaultProvider in s.calls
            ==> s.result == client.getDefaultProvider && s.calls[|s.calls| - 1] == GetDefaultProvider
    // a provider other than the default is returned only if it reported itself available
    ensures s.result.Ok? && GetDefaultProvider !in s.calls
            ==> s.result.value.isAvailable == Ok(true) && |s.calls| == 2 && s.calls[1].IsAvailable?
                && client.getProvider(signal.recommendedProvider.value) == Ok(Some(s.result.value))
    // conversely, a recommendation that is found and available is what comes back,
    // and failures of the lookup or of the availability check are passed on
    ensures Present(signal.recommendedProvider) ==>
              var id := signal.recommendedProvider.value;
              var found := client.getProvider(id);
              && (found.Err? ==> s == Step(Err(found.error), [GetProvider(id)]))
              && (found == Ok(None) ==> s == Step(client.getDefaultProvider, [GetProvider(id), GetDefaultProvider]))
              && (found.Ok? && found.value.Some? ==>
                    var p := found.value.value;
                    && (p.isAvailable == Ok(true) ==> s == Step(Ok(p), [GetProvider(id), IsAvailable(p.id)]))
                    && (p.isAvailable == Ok(false) ==>
                          s == Step(client.getDefaultProvider, [GetProvider(id), IsAvailable(p.id), GetDefaultProvider]))
                    && (p.isAvailable.Err? ==> s == Step(Err(p.isAvailable.error), [GetProvider(id), IsAvailable(p.id)])))
    // the default is asked for exactly when there is no recommendation, it is unknown, or it is unavailable
    ensures GetDefaultProvider in s.calls <==>
              || !Present(signal.recommendedProvider)
              || client.getProvider(signal.recommendedProvider.value) == Ok(None)
              || (client.getProvider(signal.recommendedProvider.value).Ok?
                  && client.getProvider(signal.recommendedProvider.value).value.Some?
                  && client.getProvider(signal.recommendedProvider.value).value.value.isAvailable == Ok(false))
  {
    if Present(signal.recommendedProvider) then
      var lookup := GetProvider(signal.recommendedProvider.value);
      match client.getProvider(signal.recommendedProvider.value)
      case Err(e) => Step(Err(e), [lookup])
      case Ok(None) => Step(client.getDefaultProvider, [lookup, GetDefaultProvider])
      case Ok(Some(p)) =>
        var check := IsAvailable(p.id);
        match p.isAvailable
        case Err(e) => Step(Err(e), [lookup, check])
        case Ok(true) => Step(Ok(p), [lookup, check])
        case Ok(false) => Step(client.getDefaultProvider, [lookup, check, GetDefaultProvider])
    else
      Step(client.getDefaultProvider, [GetDefaultProvider])
  }

  /** A lookup miss and an unavailable provider both end in the default. */
  lemma FallsBackToDefault(client: ConnectorHubClient, signal: OptimizationSignal)
    requires Present(signal.recommendedProvider)
    requires var found := client.getProvider(signal.recommendedProvider.value);
             found == Ok(None) || (found.Ok? && found.value.Some? && found.value.value.isAvailable == Ok(false))
    ensures ResolveProvider(client, signal).result == client.getDefaultProvider
  {
  }

  /** The simulator's provider: always available, named by its id. */
  function StubProvider(id: string): ProviderAdapter
  {
    ProviderAdapter(id, Ok(true))
  }

  /** The simulator hub: every id names an available provider; the default is "default-provider". */
  function SimulatorClient(): ConnectorHubClient
  {
    ConnectorHubClient(id => Ok(Some(StubProvider(id))), Ok(StubProvider("default-provider")))
  }

  /** With the simulator hub, the recommendation wins whenever it is non-empty. */
  lemma SimulatorResolves(signal: OptimizationSignal)
    ensures ResolveProvider(SimulatorClient(), signal).result
            == Ok(StubProvider(if Present(signal.recommendedProvider)
                               then signal.recommendedProvider.value else "default-provider"))
  {
  }
}
