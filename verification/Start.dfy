/** The starting point of every run theorem: a process that has published nothing, on an empty database. */
module Start {
  import opened Values
  import opened Redis
  import opened Plan
  import Ownership
  import Ttl
  import CleanRuns
  import FaultyRuns
  import Serial
  import Hosts
  import Merge

  const EMPTY: Db := Db(map[], map[], 0)

  /** Nothing has to be assumed about the first state. */
  lemma FromScratch(inst: Inst)
    ensures Ownership.Good(inst, Ownership.Ledger(EMPTY, {}))
    ensures FaultyRuns.Sound(inst, FaultyRuns.Point(Ownership.Ledger(EMPTY, {}), FaultyRuns.Settled(None)))
    ensures inst.ttl > 0 ==> CleanRuns.Clean(inst, Ttl.Site(EMPTY, None, 0))
    ensures forall proto, name :: Merge.Durable(EMPTY, proto, name)
    ensures forall a :: Hosts.OthersApart(inst, a, EMPTY)
    ensures forall ts: map<nat, Serial.Thread> :: (forall t :: t in ts ==> ts[t].Out?) ==>
      Serial.Remembered(Serial.World(Serial.Shared(EMPTY, None), None, ts), None)
  {
    hide Hosts.NameApart, Hosts.HostsApart, SetKey, NewKey, ServersPrefix;
  }
}
