/** internal/dns: name entries for the new domain on a single-node cluster, as one MachineConfig. */
module Dns {
  import opened Types
  import opened Store
  import opened Goals
  import opened Protocol
  import opened Preservation
  import opened Fixpoints
  import opened ClusterApi
  import Client

  predicate DnsSettled(s: State, cr: Relocation) {
    cr.spec.internalDns == Some(true) && s.singleNode ==> Mine(s, cr, DnsConfig, DnsBody(cr.spec.domain))
  }

  /** The guard in Reconcile of the controller is part of this method. */
  method Reconcile(c: Cluster, cr: Relocation) returns (ok: bool)
    requires c.Works(cr)
    modifies c
    ensures c.Went(Keys(DnsPart)) && c.Works(cr)
    ensures ok ==> DnsDone(c.st, cr.spec)
    // the node has the entries before the pass goes on
    ensures ok && cr.spec.internalDns == Some(true) ==>
              Answered(old(c.events), c.events, Nodes) && (c.st.singleNode ==> Answered(old(c.events), c.events, PoolUpdated))
    ensures old(c.Calm()) ==> Quiet(old(c.st), c.st, Keys(DnsPart))
    ensures old(c.Calm()) && ok ==> DnsSettled(c.st, cr)
    ensures old(c.Calm()) && DnsSettled(old(c.st), cr) ==> c.Rested()
    ensures old(c.Faultless()) ==> ok
  {
    hide Run, Inv, Steady, Quiet, Licence, Applying, Answered, Tally;
    Stay(c.st, Keys(DnsPart));
    if cr.spec.internalDns != Some(true) { return true; }
    ok := c.Probe(Nodes);
    ghost var past := c.events;
    Widen(old(c.st), c.st, NOTHING, Keys(DnsPart));
    if !ok || !c.st.singleNode { return; }
    ghost var listed := c.st;
    var b := DnsBody(cr.spec.domain);
    OwnLicence(c.st, DnsConfig, b);
    NotBlocked(c.st, DnsConfig, b, true);
    ok := Client.Apply(c, DnsConfig, b, true);
    Join(old(c.st), listed, c.st, Keys(DnsPart), iset{DnsConfig}, Keys(DnsPart));
    NodesKept(listed, c.st, iset{DnsConfig});
    if !ok { return; }
    ghost var written, patched := c.st, c.events;
    ok := c.Probe(PoolUpdated);
    AnswersGrow(old(c.events), past, c.events);
    AnswersGrow(old(c.events), patched, c.events);
    HoldsKept(written, c.st, NOTHING, DnsConfig, b);
    Join(old(c.st), written, c.st, Keys(DnsPart), NOTHING, Keys(DnsPart));
  }

  lemma NodesKept(s: State, t: State, f: iset<Key>)
    requires Steady(s, t, f)
    ensures t.singleNode == s.singleNode
  {
  }
}
