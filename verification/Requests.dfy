/** Requests for the service handler travel through the load balancer queue under a marked name. */
module Requests {
  import opened Kube
  import opened Text

  const MARKER := "service-handler-"

  function ServiceRequest(k: Key): Key {
    Key(k.namespace, MARKER + k.name)
  }

  predicate IsServiceRequest(name: string) {
    HasPrefix(name, MARKER)
  }

  /** The service name in a request name, read back by splitting at the marker. */
  function ServiceName(name: string): Option<string> {
    var parts := Split(name, MARKER);
    if |parts| == 2 then Some(parts[1]) else None
  }

  /** Decoding returns the name that was encoded exactly when the name does not contain the marker. */
  lemma DecodeIff(name: string)
    ensures IsServiceRequest(MARKER + name)
    ensures ServiceName(MARKER + name) == Some(name) <==> !Contains(name, MARKER)
    ensures ServiceName(MARKER + name) == None <==> Contains(name, MARKER)
  {
    SplitLeading(MARKER, name);
  }
}
