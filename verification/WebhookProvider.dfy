/** The provider: its pending flag and its reloads (internal/opnsense/provider.go). */
module WebhookProvider {
  import opened KeyPlan
  import opened FirewallApi
  import opened WriteClient

  class Provider {
    const cfg: Config
    const client: Client
    const pageSize: nat
    const readAttempts: nat
    /** Set before the first write of an apply, cleared only by a successful reload. */
    var pending: bool

    ghost predicate Valid()
      reads client.fw
    {
      client.fw.Valid() && pageSize > 0 && readAttempts > 0
    }

    /** Invariant I4 between calls: what is saved and not served is marked pending. */
    ghost predicate Covered()
      reads this, client.fw
    {
      pending || client.fw.Published()
    }

    constructor (cfg: Config, client: Client, pageSize: nat, readAttempts: nat)
      requires client.fw.Valid() && pageSize > 0 && readAttempts > 0
      ensures Valid() && this.client == client && this.cfg == cfg && !pending
    {
      this.cfg, this.client, this.pageSize, this.readAttempts, pending := cfg, client, pageSize, readAttempts, false;
    }

    /**
     * reconfigure: a repair that finds the flag cleared does nothing; otherwise one reload
     * decides the flag.
     */
    method Reconfigure(repair: bool) returns (ok: bool)
      requires Valid()
      modifies this`pending, client.fw`served, client.fw`faults, client.fw`struck
      ensures Valid() && client.fw.struck >= old(client.fw.struck)
      ensures repair && !old(pending) ==> ok && !pending && client.fw.served == old(client.fw.served)
      ensures !repair || old(pending) ==> pending == !ok && (ok ==> client.fw.Published())
      ensures !ok ==> client.fw.struck > old(client.fw.struck)
      ensures old(Covered()) ==> Covered()
    {
      if repair && !pending {
        return true;
      }
      ok := client.Reconfigure();
      pending := !ok;
    }
  }
}
