/**
 * The event loop of `Magasin.simule` as functions on values: one iteration is `Step`,
 * the whole loop is `Run`. Random draws come from a finite stream `tirages`, read in the
 * order the loop asks for them: the first arrival gap before the loop, then per arrival
 * the cart value, the patience, the next arrival gap and (on direct service) a service
 * duration, and per served dequeue one service duration.
 */
module Evenement {
  import opened Temps
  import opened Entites
  import opened Selection

  /** The arguments of `simule` that are not random-variate rates. */
  datatype Parametres = Parametres(tempsSimulation: real, beneficeCadi: real, coutRearrangement: real)

  /** The store together with the locals of `simule` and the position in the draw stream. */
  datatype EtatBoucle = EtatBoucle(
    magasin: EtatMagasin,
    temps: Instant,
    prochaineArrivee: Instant,
    nbClients: int,
    curseur: nat)

  /** The most draws one iteration consumes (direct service on arrival). */
  const TiragesParEvenement := 4

  /** Before the loop: time 0, no customer yet, first arrival gap drawn. */
  function Depart(m: EtatMagasin, tirages: seq<real>): EtatBoucle
  {
    if |tirages| == 0 then EtatBoucle(m, Fin(0.0), Inf, 0, 0)
    else EtatBoucle(m, Fin(0.0), Fin(tirages[0]), 0, 1)
  }

  /** The loop guard: before the horizon, and enough draws left for one more event. */
  predicate Continue(s: EtatBoucle, p: Parametres, tirages: seq<real>)
  {
    Lt(s.temps, Fin(p.tempsSimulation)) && s.curseur + TiragesParEvenement <= |tirages|
  }

  /** What every state of the loop satisfies, and all that `Run` needs to terminate. */
  predicate Bien(s: EtatBoucle, tirages: seq<real>)
  {
    |s.magasin.caisses| > 0 &&
    (forall i :: 0 <= i < |s.magasin.caisses| ==> Coherente(s.magasin.caisses[i])) &&
    s.curseur <= |tirages|
  }

  /** Indices of the busy registers. */
  function Occupees(cs: seq<EtatCaisse>): set<nat>
  {
    set i: nat | i < |cs| && !cs[i].libre
  }

  /**
   * The occupancy integrals grow by the interval `[t, e)` weighted by the `nbClients`
   * customers in the store and by the length of the line, when `e` is before `horizon`.
   */
  function Cumul(m: EtatMagasin, nbClients: int, t: real, e: Instant, horizon: real): EtatMagasin
  {
    if Lt(e, Fin(horizon)) then
      m.(espClientMagasin := m.espClientMagasin + nbClients as real * (e.r - t),
         espClientFile := m.espClientFile + |m.file| as real * (e.r - t))
    else m
  }

  /** Accumulate the occupancy integrals up to `e`, then move the clock to `e`. */
  function Avance(s: EtatBoucle, p: Parametres, e: Instant): EtatBoucle
    requires s.temps.Fin?
  {
    s.(temps := e, magasin := Cumul(s.magasin, s.nbClients, s.temps.r, e, p.tempsSimulation))
  }

  /**
   * Register `j` takes `client`, who arrived at `t`, until `fin`: the customer's service
   * time is stamped with `fin`, the register becomes busy, and profit and the time-in-store
   * accumulator grow.
   */
  function ServiceDirect(m: EtatMagasin, j: nat, client: Client, t: real, fin: real, beneficeCadi: real): EtatMagasin
    requires j < |m.caisses|
  {
    var caisse := EtatCaisse(false, Fin(fin), m.caisses[j].clientsServis + [client.(tempsService := Fin(fin))]);
    m.(caisses := m.caisses[j := caisse],
       nbClientsTraites := m.nbClientsTraites + 1,
       benefice := m.benefice + client.cadi * beneficeCadi,
       espTempsMagasin := m.espTempsMagasin + (fin - t))
  }

  /**
   * An arrival at `s.temps`, before the horizon: the customer is counted, the next arrival
   * is drawn; if it falls before the horizon the customer goes to `caisseLibre`, the free
   * register looked up beforehand, or to the tail of the line when there is none; otherwise
   * no further arrival is scheduled and this customer is neither served nor queued.
   */
  function Arrivee(s: EtatBoucle, caisseLibre: Option<nat>, p: Parametres, tirages: seq<real>): EtatBoucle
    requires s.temps.Fin? && s.curseur + TiragesParEvenement <= |tirages|
    requires caisseLibre.Some? ==> caisseLibre.value < |s.magasin.caisses|
  {
    var t := s.temps.r;
    var m := s.magasin;
    var client := Client(t, Inf, tirages[s.curseur], tirages[s.curseur + 1]);
    var suivante := t + tirages[s.curseur + 2];
    var m1 := m.(nbClientsTotal := m.nbClientsTotal + 1);
    var s1 := s.(nbClients := s.nbClients + 1, prochaineArrivee := Fin(suivante), curseur := s.curseur + 3);
    if suivante < p.tempsSimulation then
      match caisseLibre
      case Some(j) =>
        s1.(magasin := ServiceDirect(m1, j, client, t, t + tirages[s.curseur + 3], p.beneficeCadi),
            curseur := s.curseur + 4)
      case None =>
        s1.(magasin := m1.(file := m.file + [client]))
    else
      s1.(magasin := m1, prochaineArrivee := Inf)
  }

  /**
   * Register `k` takes `client`, taken from the line at `t`, until `fin`: profit grows, the
   * wait is added to the time-in-line accumulator, and the service duration is added to the
   * customers-in-store accumulator.
   */
  function ServiceFile(m: EtatMagasin, k: nat, client: Client, t: real, fin: real, beneficeCadi: real): EtatMagasin
    requires k < |m.caisses|
  {
    var caisse := m.caisses[k].(prochainService := Fin(fin), clientsServis := m.caisses[k].clientsServis + [client]);
    m.(caisses := m.caisses[k := caisse],
       nbClientsTraites := m.nbClientsTraites + 1,
       benefice := m.benefice + client.cadi * beneficeCadi,
       espTempsFile := m.espTempsFile + (t - client.momentArrivee),
       espClientMagasin := m.espClientMagasin + (fin - t))
  }

  /** Register `k` becomes free with nothing scheduled. */
  function Liberation(m: EtatMagasin, k: nat): EtatMagasin
    requires k < |m.caisses|
  {
    m.(caisses := m.caisses[k := m.caisses[k].(libre := true, prochainService := Inf)])
  }

  /**
   * Register `k` completes at `s.temps`. With a non-empty line the last customer of the
   * line is taken and served by `k` when their patience covers the wait, otherwise lost;
   * with an empty line the earliest-completing register is freed.
   */
  function FinService(s: EtatBoucle, k: nat, p: Parametres, tirages: seq<real>): EtatBoucle
    requires k < |s.magasin.caisses| && s.temps.Fin? && s.curseur + 1 <= |tirages|
  {
    var m := s.magasin;
    var t := s.temps.r;
    if |m.file| != 0 then
      var client := m.file[|m.file| - 1].(tempsService := Fin(t));
      var m1 := m.(file := m.file[..|m.file| - 1]);
      var s1 := s.(nbClients := s.nbClients - 1);
      if Le(TempsAttente(client), Fin(client.tolerance)) then
        s1.(magasin := ServiceFile(m1, k, client, t, t + tirages[s.curseur], p.beneficeCadi),
            curseur := s.curseur + 1)
      else
        s1.(magasin := m1.(manqueGagner := m.manqueGagner + client.cadi * p.beneficeCadi,
                           coutsRearrangement := m.coutsRearrangement + p.coutRearrangement,
                           nbClientsPartis := m.nbClientsPartis + 1))
    else
      s.(magasin := Liberation(m, ProchaineCaisse(m.caisses)))
  }

  /** The register whose completion competes with the next arrival. */
  function Candidate(s: EtatBoucle): nat
    requires |s.magasin.caisses| > 0
  {
    ProchaineCaisse(s.magasin.caisses)
  }

  /** Whether the next event is an arrival (ties go to the arrival). */
  predicate ClientArrive(s: EtatBoucle)
    requires |s.magasin.caisses| > 0
  {
    Le(s.prochaineArrivee, s.magasin.caisses[Candidate(s)].prochainService)
  }

  /** The time of the next event. */
  function ProchainEvenement(s: EtatBoucle): Instant
    requires |s.magasin.caisses| > 0
  {
    if ClientArrive(s) then s.prochaineArrivee else s.magasin.caisses[Candidate(s)].prochainService
  }

  /** One iteration of the loop. */
  function Step(s: EtatBoucle, p: Parametres, tirages: seq<real>): EtatBoucle
    requires Continue(s, p, tirages) && |s.magasin.caisses| > 0
  {
    var s1 := Avance(s, p, ProchainEvenement(s));
    if ClientArrive(s) && Lt(s1.temps, Fin(p.tempsSimulation)) then Arrivee(s1, PremiereLibre(s1.magasin.caisses), p, tirages)
    else if !ClientArrive(s) then FinService(s1, Candidate(s), p, tirages)
    else s1
  }

  /**
   * Each iteration either moves the clock to the horizon or past it, consumes draws, shortens
   * the line, or frees a busy register; the loop state stays well-formed.
   */
  lemma StepProgress(s: EtatBoucle, p: Parametres, tirages: seq<real>)
    requires Bien(s, tirages) && Continue(s, p, tirages)
    ensures var r := Step(s, p, tirages);
      Bien(r, tirages) && s.curseur <= r.curseur &&
      (!Lt(r.temps, Fin(p.tempsSimulation)) || s.curseur < r.curseur ||
       (s.curseur == r.curseur && |r.magasin.file| < |s.magasin.file|) ||
       (s.curseur == r.curseur && |r.magasin.file| == |s.magasin.file| &&
        |Occupees(r.magasin.caisses)| < |Occupees(s.magasin.caisses)|))
  {
    var k := Candidate(s);
    var s1 := Avance(s, p, ProchainEvenement(s));
    var cs := s.magasin.caisses;
    if !ClientArrive(s) && |s.magasin.file| == 0 {
      assert s1.magasin.caisses == cs;
      assert ProchaineCaisse(s1.magasin.caisses) == k;
      var cs' := cs[k := cs[k].(libre := true, prochainService := Inf)];
      assert Step(s, p, tirages).magasin.caisses == cs';
      assert k in Occupees(cs);
      assert Occupees(cs') == Occupees(cs) - {k};
    }
  }

  /** The loop run to its end: the guard no longer holds. */
  function Run(s: EtatBoucle, p: Parametres, tirages: seq<real>): (r: EtatBoucle)
    requires Bien(s, tirages)
    ensures Bien(r, tirages) && !Continue(r, p, tirages)
    ensures |r.magasin.caisses| == |s.magasin.caisses|
    decreases if Lt(s.temps, Fin(p.tempsSimulation)) then 1 else 0,
              |tirages| - s.curseur, |s.magasin.file|, |Occupees(s.magasin.caisses)|
  {
    if Continue(s, p, tirages) then
      StepProgress(s, p, tirages);
      Run(Step(s, p, tirages), p, tirages)
    else s
  }
}
