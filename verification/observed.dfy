/** A tunnel as the Cloudflare API lists it for one account. */
module Observed {

  datatype Tunnel = Tunnel(name: string, id: string, status: string)

  /** The one status the worker treats as up; every other status is a fault. */
  const Healthy: string := "healthy"

  predicate IsHealthy(t: Tunnel) {
    t.status == Healthy
  }

  /** `tunnels.filter(t => t.status === 'healthy').length`. */
  function HealthyCount(tunnels: seq<Tunnel>): (n: nat)
    ensures n <= |tunnels|
  {
    if |tunnels| == 0 then 0
    else HealthyCount(tunnels[..|tunnels| - 1]) + (if IsHealthy(tunnels[|tunnels| - 1]) then 1 else 0)
  }

  /** `tunnels.filter(t => t.status !== 'healthy')`. */
  function Down(tunnels: seq<Tunnel>): (r: seq<Tunnel>)
    ensures forall i :: 0 <= i < |r| ==> !IsHealthy(r[i])
  {
    if |tunnels| == 0 then []
    else Down(tunnels[..|tunnels| - 1]) + (if IsHealthy(tunnels[|tunnels| - 1]) then [] else [tunnels[|tunnels| - 1]])
  }

  /** Every tunnel is counted as healthy or listed as down, never both. */
  lemma {:induction false} HealthyPlusDown(tunnels: seq<Tunnel>)
    ensures HealthyCount(tunnels) + |Down(tunnels)| == |tunnels|
  {
    if |tunnels| > 0 {
      HealthyPlusDown(tunnels[..|tunnels| - 1]);
    }
  }

  /** No tunnel is down exactly when every tunnel is healthy. */
  lemma {:induction false} NoneDownIffAllHealthy(tunnels: seq<Tunnel>)
    ensures Down(tunnels) == [] <==> forall i :: 0 <= i < |tunnels| ==> IsHealthy(tunnels[i])
  {
    if |tunnels| > 0 {
      var init := tunnels[..|tunnels| - 1];
      NoneDownIffAllHealthy(init);
      assert forall i :: 0 <= i < |init| ==> init[i] == tunnels[i];
    }
  }
}
