/** The liveness flag: POST /health flips it, GET /health and /home report it. */
module Health {

  const HEALTHY_MESSAGE := "I'm feeling OK."
  const UNHEALTHY_MESSAGE := "I'm not feeling all that well."

  /** An HTTP status code with the body sent alongside it. */
  datatype HttpReply = HttpReply(status: int, body: string)

  /** `healthStatus()`: the sentence the pages show for the flag. */
  function HealthStatus(healthy: bool): (s: string)
    ensures s == HEALTHY_MESSAGE <==> healthy
    ensures s == UNHEALTHY_MESSAGE <==> !healthy
  {
    if healthy then HEALTHY_MESSAGE else UNHEALTHY_MESSAGE
  }

  /** GET /health: 200 exactly when healthy, 500 otherwise, and the status
      sentence as the body. */
  function HealthReply(healthy: bool): (r: HttpReply)
    ensures r.status == 200 <==> healthy
    ensures r.status == 500 <==> !healthy
    ensures r.body == HEALTHY_MESSAGE <==> r.status == 200
    ensures r.body == HealthStatus(healthy)
  {
    HttpReply(if healthy then 200 else 500, HealthStatus(healthy))
  }

  /** The module-level `healthy` variable; it starts true. */
  class HealthFlag {
    var healthy: bool

    constructor ()
      ensures healthy
    {
      healthy := true;
    }

    /** GET /health. */
    method Get() returns (r: HttpReply)
      ensures r.status == 200 <==> healthy
      ensures r == HealthReply(healthy)
    {
      r := HealthReply(healthy);
    }

    /** GET /home renders the status sentence. */
    method Home() returns (status: string)
      ensures status == HEALTHY_MESSAGE <==> healthy
      ensures status == HealthStatus(healthy)
    {
      status := HealthStatus(healthy);
    }

    /** POST /health: negate the flag, then redirect to /home. */
    method Toggle() returns (redirect: string)
      modifies this
      ensures healthy == !old(healthy)
      ensures redirect == "/home"
    {
      healthy := !healthy;
      redirect := "/home";
    }
  }

  /** Two POSTs to /health leave the pod as healthy as it was, and a GET
      /health in between reports the flipped state. */
  method ToggleTwiceRestores(h: HealthFlag) returns (middle: HttpReply)
    modifies h
    ensures h.healthy == old(h.healthy)
    ensures middle == HealthReply(!old(h.healthy))
    ensures middle.status == 200 <==> !old(h.healthy)
  {
    var _ := h.Toggle();
    middle := h.Get();
    var _ := h.Toggle();
  }
}
