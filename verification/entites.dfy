/** The values the store works on: customers, register states and the store's own state. */
module Entites {
  import opened Temps

  /** A customer: arrival time, service time (`Inf` until served), cart value and patience. */
  datatype Client = Client(momentArrivee: real, tempsService: Instant, cadi: real, tolerance: real)

  /** Time the customer waited: service time minus arrival time, `Inf` while unserved. */
  function TempsAttente(c: Client): (w: Instant)
    ensures w.Fin? <==> c.tempsService.Fin?
    ensures w.Fin? ==> c.momentArrivee + w.r == c.tempsService.r
  {
    if c.tempsService.Fin? then Fin(c.tempsService.r - c.momentArrivee) else Inf
  }

  /** The state of one register: free flag, next completion time and log of served customers. */
  datatype EtatCaisse = EtatCaisse(libre: bool, prochainService: Instant, clientsServis: seq<Client>)

  /** A register is free exactly when it has no completion scheduled. */
  predicate Coherente(c: EtatCaisse)
  {
    c.libre <==> c.prochainService == Inf
  }

  /** The store: registers, waiting line and running counters and accumulators. */
  datatype EtatMagasin = EtatMagasin(
    caisses: seq<EtatCaisse>,
    file: seq<Client>,
    nbClientsTotal: nat,
    nbClientsTraites: nat,
    nbClientsPartis: nat,
    benefice: real,
    manqueGagner: real,
    coutsRearrangement: real,
    espClientMagasin: real,
    espClientFile: real,
    espTempsMagasin: real,
    espTempsFile: real)

  /** A register as created: free, nothing scheduled, nobody served. */
  const CaisseNeuve := EtatCaisse(true, Inf, [])

  /** A store as created with `n` registers: all free, empty line, every counter zero. */
  function Neuf(n: nat): EtatMagasin
  {
    EtatMagasin(seq(n, _ => CaisseNeuve), [], 0, 0, 0, 0.0, 0.0, 0.0, 0.0, 0.0, 0.0, 0.0)
  }

  /** Total length of the registers' served logs. */
  function SommeServis(cs: seq<EtatCaisse>): nat
  {
    if cs == [] then 0 else |cs[0].clientsServis| + SommeServis(cs[1..])
  }

  /** Replacing one register changes the total log length by the change in that register's log. */
  lemma {:induction false} SommeServisRemplace(cs: seq<EtatCaisse>, j: nat, c: EtatCaisse)
    requires j < |cs|
    ensures SommeServis(cs[j := c]) + |cs[j].clientsServis| == SommeServis(cs) + |c.clientsServis|
  {
    if j > 0 {
      assert cs[j := c][1..] == cs[1..][j - 1 := c];
      SommeServisRemplace(cs[1..], j - 1, c);
    } else {
      assert cs[j := c][1..] == cs[1..];
    }
  }

  /** A store as created has served nobody. */
  lemma {:induction false} SommeServisNeuf(n: nat)
    ensures SommeServis(Neuf(n).caisses) == 0
  {
    if n > 0 {
      assert Neuf(n).caisses[1..] == Neuf(n - 1).caisses;
      SommeServisNeuf(n - 1);
    }
  }
}
