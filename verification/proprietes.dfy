/** What single iterations and whole runs of the loop do, stated against the event semantics. */
module Proprietes {
  import opened Temps
  import opened Entites
  import opened Selection
  import opened Evenement
  import opened Invariants

  /**
   * A completion with customers waiting takes the LAST customer of the line, stamps their
   * service time with the current time, and either serves them at the completing register
   * (patience covers the wait) or books a departure.
   */
  lemma FinServiceLifo(s: EtatBoucle, p: Parametres, tirages: seq<real>)
    requires Bien(s, tirages) && Continue(s, p, tirages)
    requires !ClientArrive(s) && |s.magasin.file| > 0
    ensures var r, m, e := Step(s, p, tirages), s.magasin, ProchainEvenement(s);
      var c, k := m.file[|m.file| - 1], Candidate(s);
      e.Fin? && r.temps == e &&
      r.magasin.file == m.file[..|m.file| - 1] &&
      r.nbClients == s.nbClients - 1 &&
      r.magasin.nbClientsTotal == m.nbClientsTotal &&
      if c.tolerance >= e.r - c.momentArrivee then
        r.magasin.nbClientsTraites == m.nbClientsTraites + 1 &&
        r.magasin.nbClientsPartis == m.nbClientsPartis &&
        r.magasin.benefice == m.benefice + c.cadi * p.beneficeCadi &&
        r.magasin.manqueGagner == m.manqueGagner &&
        r.magasin.coutsRearrangement == m.coutsRearrangement &&
        r.magasin.espTempsFile == m.espTempsFile + (e.r - c.momentArrivee) &&
        r.magasin.espClientMagasin ==
          Cumul(m, s.nbClients, s.temps.r, e, p.tempsSimulation).espClientMagasin + tirages[s.curseur] &&
        r.magasin.caisses == m.caisses[k := EtatCaisse(m.caisses[k].libre,
                                                       Fin(e.r + tirages[s.curseur]),
                                                       m.caisses[k].clientsServis + [c.(tempsService := e)])] &&
        r.curseur == s.curseur + 1
      else
        r.magasin.nbClientsTraites == m.nbClientsTraites &&
        r.magasin.nbClientsPartis == m.nbClientsPartis + 1 &&
        r.magasin.manqueGagner == m.manqueGagner + c.cadi * p.beneficeCadi &&
        r.magasin.coutsRearrangement == m.coutsRearrangement + p.coutRearrangement &&
        r.magasin.benefice == m.benefice &&
        r.magasin.espTempsFile == m.espTempsFile &&
        r.magasin.caisses == m.caisses &&
        r.curseur == s.curseur
  {
  }

  /** A completion with nobody waiting frees the completing register and changes nothing else of it. */
  lemma FinServiceLibere(s: EtatBoucle, p: Parametres, tirages: seq<real>)
    requires Bien(s, tirages) && Continue(s, p, tirages)
    requires !ClientArrive(s) && |s.magasin.file| == 0
    ensures var r, m, k := Step(s, p, tirages), s.magasin, Candidate(s);
      r.magasin.caisses == m.caisses[k := EtatCaisse(true, Inf, m.caisses[k].clientsServis)] &&
      r.magasin.file == m.file &&
      r.nbClients == s.nbClients &&
      r.magasin.nbClientsTotal == m.nbClientsTotal &&
      r.magasin.nbClientsTraites == m.nbClientsTraites &&
      r.magasin.nbClientsPartis == m.nbClientsPartis &&
      r.magasin.benefice == m.benefice &&
      r.magasin.manqueGagner == m.manqueGagner &&
      r.magasin.coutsRearrangement == m.coutsRearrangement &&
      r.magasin.espTempsMagasin == m.espTempsMagasin &&
      r.magasin.espTempsFile == m.espTempsFile &&
      r.curseur == s.curseur
  {
  }

  /**
   * An arrival whose successor would fall at or past the horizon is counted, but the
   * customer is neither served nor queued, and no further arrival is scheduled; the
   * conservation inequality becomes strict.
   */
  lemma ArriveeHorsHorizon(s: EtatBoucle, p: Parametres, tirages: seq<real>)
    requires Inv(s, p, tirages) && Continue(s, p, tirages)
    requires ClientArrive(s) && Lt(ProchainEvenement(s), Fin(p.tempsSimulation))
    requires ProchainEvenement(s).r + tirages[s.curseur + 2] >= p.tempsSimulation
    ensures var r, m := Step(s, p, tirages), s.magasin;
      r.magasin.nbClientsTotal == m.nbClientsTotal + 1 &&
      r.nbClients == s.nbClients + 1 &&
      r.magasin.file == m.file &&
      r.magasin.caisses == m.caisses &&
      r.magasin.nbClientsTraites == m.nbClientsTraites &&
      r.magasin.nbClientsPartis == m.nbClientsPartis &&
      r.prochaineArrivee == Inf &&
      r.magasin.nbClientsTraites + r.magasin.nbClientsPartis + |r.magasin.file| < r.magasin.nbClientsTotal
  {
  }

  /**
   * On direct service the customer's service time is the completion time, so the wait
   * recorded for them is their service duration rather than zero.
   */
  lemma ServiceDirectAttente(s: EtatBoucle, p: Parametres, tirages: seq<real>)
    requires Bien(s, tirages) && Continue(s, p, tirages)
    requires ClientArrive(s) && Lt(ProchainEvenement(s), Fin(p.tempsSimulation))
    requires ProchainEvenement(s).r + tirages[s.curseur + 2] < p.tempsSimulation
    requires PremiereLibre(s.magasin.caisses).Some?
    ensures var r, j, e := Step(s, p, tirages), PremiereLibre(s.magasin.caisses).value, ProchainEvenement(s);
      var log := r.magasin.caisses[j].clientsServis;
      |log| == |s.magasin.caisses[j].clientsServis| + 1 &&
      log[|log| - 1].momentArrivee == e.r &&
      TempsAttente(log[|log| - 1]) == Fin(tirages[s.curseur + 3]) &&
      !r.magasin.caisses[j].libre &&
      r.magasin.caisses[j].prochainService == Fin(e.r + tirages[s.curseur + 3]) &&
      r.magasin.file == s.magasin.file &&
      r.magasin.nbClientsTotal == s.magasin.nbClientsTotal + 1 &&
      r.magasin.nbClientsTraites == s.magasin.nbClientsTraites + 1 &&
      r.magasin.benefice == s.magasin.benefice + tirages[s.curseur] * p.beneficeCadi
  {
  }

  /**
   * An arrival before the horizon that finds every register busy joins the line at its
   * tail (the completion branch takes from that same tail): the registers are untouched,
   * the customer is counted and three draws are consumed.
   */
  lemma ArriveeFile(s: EtatBoucle, p: Parametres, tirages: seq<real>)
    requires Bien(s, tirages) && Continue(s, p, tirages)
    requires ClientArrive(s) && Lt(ProchainEvenement(s), Fin(p.tempsSimulation))
    requires ProchainEvenement(s).r + tirages[s.curseur + 2] < p.tempsSimulation
    requires PremiereLibre(s.magasin.caisses).None?
    ensures var r, m, e := Step(s, p, tirages), s.magasin, ProchainEvenement(s);
      r.magasin.file == m.file + [Client(e.r, Inf, tirages[s.curseur], tirages[s.curseur + 1])] &&
      r.magasin.caisses == m.caisses &&
      r.magasin.nbClientsTotal == m.nbClientsTotal + 1 &&
      r.magasin.nbClientsTraites == m.nbClientsTraites &&
      r.magasin.nbClientsPartis == m.nbClientsPartis &&
      r.nbClients == s.nbClients + 1 &&
      r.prochaineArrivee == Fin(e.r + tirages[s.curseur + 2]) &&
      r.curseur == s.curseur + 3
  {
  }

  /**
   * The occupancy integrals get an interval term only for an event before the horizon;
   * past it the line integral is untouched and the in-store one moves only by the service
   * duration a served dequeue adds to it.
   */
  lemma AccumulateursHorizon(s: EtatBoucle, p: Parametres, tirages: seq<real>)
    requires Bien(s, tirages) && Continue(s, p, tirages)
    ensures var r, m, e := Step(s, p, tirages), s.magasin, ProchainEvenement(s);
      (Lt(e, Fin(p.tempsSimulation)) ==>
         r.magasin.espClientFile == m.espClientFile + |m.file| as real * (e.r - s.temps.r)) &&
      (!Lt(e, Fin(p.tempsSimulation)) ==>
         r.magasin.espClientFile == m.espClientFile &&
         r.magasin.espTempsMagasin == m.espTempsMagasin &&
         (r.magasin.espClientMagasin == m.espClientMagasin ||
          (!ClientArrive(s) && r.magasin.nbClientsTraites == m.nbClientsTraites + 1 &&
           r.magasin.espClientMagasin == m.espClientMagasin + tirages[s.curseur])))
  {
  }

  /** With a horizon at or before 0 the loop never runs: no customer and every counter zero. */
  lemma HorizonNul(n: nat, p: Parametres, tirages: seq<real>)
    requires n > 0 && p.tempsSimulation <= 0.0
    ensures Run(Depart(Neuf(n), tirages), p, tirages).magasin == Neuf(n)
  {
  }

  /**
   * The balance sheet of a finished run: registers are free exactly when idle, customers are
   * conserved, every service is logged, the rearrangement cost is charged once per departure,
   * accumulators are non-negative.
   */
  ghost predicate Bilan(m: EtatMagasin, p: Parametres)
  {
    (forall i :: 0 <= i < |m.caisses| ==> (m.caisses[i].libre <==> m.caisses[i].prochainService == Inf)) &&
    m.nbClientsTraites + m.nbClientsPartis + |m.file| <= m.nbClientsTotal &&
    SommeServis(m.caisses) == m.nbClientsTraites &&
    m.coutsRearrangement == CoutCumule(m.nbClientsPartis, p.coutRearrangement) &&
    Esperances(m)
  }

  /** A run from a store as created ends with a sound balance sheet and a clock that never went back. */
  lemma SimulationDepuisNeuf(n: nat, p: Parametres, tirages: seq<real>)
    requires n > 0 && TiragesPositifs(tirages)
    ensures var r := Run(Depart(Neuf(n), tirages), p, tirages);
      Bilan(r.magasin, p) && Le(Fin(0.0), r.temps)
  {
    DepartInv(n, p, tirages);
    RunInv(Depart(Neuf(n), tirages), p, tirages);
  }
}
