/** contract.go: the contracts of the services a program talks to, looked up by label. */
module Contracts {
  import opened Wrappers
  import opened Routes

  datatype Contract = Contract(services: seq<ServiceContract>)

  /**
   * `serviceContract`: a linear search in declaration order. The result is
   * the first service with the label, equal to that element, and nothing
   * exactly when no service has the label.
   */
  method ServiceContractByLabel(c: Contract, wanted: string) returns (r: Option<ServiceContract>)
    ensures r.Some? <==> exists i :: 0 <= i < |c.services| && c.services[i].name == wanted
    ensures r.Some? ==> r.value.name == wanted
    ensures r.Some? ==> exists i :: (0 <= i < |c.services| && c.services[i] == r.value
                                     && forall j :: 0 <= j < i ==> c.services[j].name != wanted)
  {
    var i := 0;
    while i < |c.services|
      invariant 0 <= i <= |c.services|
      invariant forall j :: 0 <= j < i ==> c.services[j].name != wanted
    {
      var d := c.services[i];
      if d.name == wanted {
        return Some(d);
      }
      i := i + 1;
    }
    return None;
  }
}
