// Which endpoint may take which message.
module Routing {
  import opened Domain

  predicate HasPrefix(s: string, prefix: string) {
    prefix <= s
  }

  predicate HasSuffix(s: string, suffix: string) {
    |suffix| <= |s| && s[|s| - |suffix|..] == suffix
  }

  /** `name` is a wildcard such as "code.*" that covers `target`. */
  predicate WildcardCovers(name: string, target: string) {
    HasSuffix(name, ".*") && HasPrefix(target, name[..|name| - 1])
  }

  predicate CanHandle(capabilities: set<string>, target: string) {
    target != "" && (target in capabilities || exists name :: name in capabilities && WildcardCovers(name, target))
  }

  predicate Targets(message: Message, endpointRef: Ref) {
    message.targetEndpointRef == "" || message.targetEndpointRef == endpointRef
  }

  predicate Routable(message: Message, endpoint: Endpoint) {
    Targets(message, endpoint.endpointRef) && CanHandle(endpoint.capabilities, message.targetCapability)
  }

  predicate Claimable(message: Message, endpoint: Endpoint, preferredOnline: bool) {
    && Routable(message, endpoint)
    && (message.preferredEndpointRef == "" || message.preferredEndpointRef == endpoint.endpointRef || !preferredOnline)
  }

  predicate PreferredOnline(message: Message, endpoints: map<Ref, Endpoint>) {
    && message.preferredEndpointRef != ""
    && message.preferredEndpointRef in endpoints
    && CanHandle(endpoints[message.preferredEndpointRef].capabilities, message.targetCapability)
  }

  predicate DependenciesCompleted(message: Message, states: map<Ref, MessageState>) {
    forall ref :: ref in message.dependsOn && ref != "" ==> ref in states && states[ref] == MessageState.Completed
  }

  /** The search loop over an endpoint's capabilities. */
  method CapabilityMatches(capabilities: set<string>, target: string) returns (matches: bool)
    ensures matches == CanHandle(capabilities, target)
  {
    if target == "" { return false; }
    if target in capabilities { return true; }
    var rest := capabilities;
    while rest != {}
      invariant rest <= capabilities
      invariant forall name :: name in capabilities - rest ==> !WildcardCovers(name, target)
      decreases rest
    {
      var name :| name in rest;
      rest := rest - {name};
      if !HasSuffix(name, ".*") { continue; }
      if HasPrefix(target, name[..|name| - 1]) { return true; }
    }
    return false;
  }

  /** The search loop over a message's dependencies. */
  method MessageDependenciesCompleted(message: Message, states: map<Ref, MessageState>) returns (completed: bool)
    ensures completed == DependenciesCompleted(message, states)
  {
    for i := 0 to |message.dependsOn|
      invariant forall j :: 0 <= j < i && message.dependsOn[j] != "" ==>
        message.dependsOn[j] in states && states[message.dependsOn[j]] == MessageState.Completed
    {
      var ref := message.dependsOn[i];
      if ref == "" { continue; }
      if !(ref in states && states[ref] == MessageState.Completed) { return false; }
    }
    return true;
  }
}
