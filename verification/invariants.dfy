/**
 * What the event loop keeps true, given non-negative draws, and what single iterations do:
 * free registers are exactly those with nothing scheduled, time never goes back, customers
 * are conserved, rearrangement costs follow departures, the line is served from its tail.
 */
module Invariants {
  import opened Temps
  import opened Entites
  import opened Selection
  import opened Evenement

  /** Every draw is non-negative, as exponential and `uniform(0, max)` draws with `max >= 0` are. */
  predicate TiragesPositifs(tirages: seq<real>)
  {
    forall i :: 0 <= i < |tirages| ==> tirages[i] >= 0.0
  }

  /** Nothing is scheduled before the clock, and every waiting customer arrived by now, unserved. */
  ghost predicate Horloge(s: EtatBoucle)
  {
    var m := s.magasin;
    (forall i :: 0 <= i < |m.caisses| ==> Le(s.temps, m.caisses[i].prochainService)) &&
    Le(s.temps, s.prochaineArrivee) &&
    (forall i :: 0 <= i < |m.file| ==>
       m.file[i].tempsService == Inf && Le(Fin(m.file[i].momentArrivee), s.temps))
  }

  /** The per-departure cost `z` charged `n` times over. */
  function CoutCumule(n: nat, z: real): real
  {
    if n == 0 then 0.0 else CoutCumule(n - 1, z) + z
  }

  /** Charging `z` once per departure amounts to `n * z`. */
  lemma {:induction false} CoutCumuleProduit(n: nat, z: real)
    ensures CoutCumule(n, z) == n as real * z
  {
    if n > 0 {
      CoutCumuleProduit(n - 1, z);
      assert n as real * z == (n - 1) as real * z + z;
    }
  }

  /** Customer counts: nobody is served, lost or waiting twice; costs follow departures. */
  ghost predicate Comptes(s: EtatBoucle, p: Parametres)
  {
    var m := s.magasin;
    |m.file| <= s.nbClients <= m.nbClientsTotal &&
    m.nbClientsTraites + m.nbClientsPartis + |m.file| <= m.nbClientsTotal &&
    SommeServis(m.caisses) == m.nbClientsTraites &&
    m.coutsRearrangement == CoutCumule(m.nbClientsPartis, p.coutRearrangement)
  }

  /** The four time-weighted accumulators never go negative. */
  ghost predicate Esperances(m: EtatMagasin)
  {
    m.espClientMagasin >= 0.0 && m.espClientFile >= 0.0 &&
    m.espTempsMagasin >= 0.0 && m.espTempsFile >= 0.0
  }

  ghost predicate Inv(s: EtatBoucle, p: Parametres, tirages: seq<real>)
  {
    Bien(s, tirages) && Horloge(s) && Comptes(s, p) && Esperances(s.magasin)
  }

  /** A store as created, started at time 0, satisfies the invariant. */
  lemma DepartInv(n: nat, p: Parametres, tirages: seq<real>)
    requires n > 0 && TiragesPositifs(tirages)
    ensures Inv(Depart(Neuf(n), tirages), p, tirages)
  {
    SommeServisNeuf(n);
  }

  /** A product of two non-negative reals is non-negative. */
  lemma ProduitPositif(a: real, b: real)
    requires a >= 0.0 && b >= 0.0
    ensures a * b >= 0.0
  {
  }

  /** Accumulating and moving the clock to the next event keeps the invariant. */
  lemma AvanceInv(s: EtatBoucle, p: Parametres, tirages: seq<real>)
    requires Inv(s, p, tirages) && Continue(s, p, tirages)
    ensures Inv(Avance(s, p, ProchainEvenement(s)), p, tirages)
    ensures Le(s.temps, ProchainEvenement(s))
  {
    var e := ProchainEvenement(s);
    var k := Candidate(s);
    assert Le(e, s.magasin.caisses[k].prochainService);
    assert Le(s.temps, e);
    if Lt(e, Fin(p.tempsSimulation)) {
      ProduitPositif(s.nbClients as real, e.r - s.temps.r);
      ProduitPositif(|s.magasin.file| as real, e.r - s.temps.r);
    }
    var s1 := Avance(s, p, e);
    var m, m1 := s.magasin, s1.magasin;
    assert m1 == m.(espClientMagasin := m1.espClientMagasin, espClientFile := m1.espClientFile);
    assert m1.espClientMagasin >= m.espClientMagasin && m1.espClientFile >= m.espClientFile;
    forall i | 0 <= i < |m1.caisses|
      ensures Le(s1.temps, m1.caisses[i].prochainService)
    {
      assert Le(m.caisses[k].prochainService, m.caisses[i].prochainService);
    }
    assert Horloge(s1);
    assert Comptes(s1, p);
  }

  /** An arrival before the horizon keeps the invariant, whichever register takes the customer. */
  lemma ArriveeInv(s: EtatBoucle, caisseLibre: Option<nat>, p: Parametres, tirages: seq<real>)
    requires Inv(s, p, tirages) && TiragesPositifs(tirages)
    requires s.temps.Fin? && s.curseur + TiragesParEvenement <= |tirages|
    requires caisseLibre.Some? ==> caisseLibre.value < |s.magasin.caisses|
    ensures Inv(Arrivee(s, caisseLibre, p, tirages), p, tirages)
  {
    var m := s.magasin;
    var t := s.temps.r;
    var suivante := t + tirages[s.curseur + 2];
    if suivante < p.tempsSimulation {
      match caisseLibre
      case Some(j) =>
        var fin := t + tirages[s.curseur + 3];
        var client := Client(t, Inf, tirages[s.curseur], tirages[s.curseur + 1]);
        var caisse := EtatCaisse(false, Fin(fin), m.caisses[j].clientsServis + [client.(tempsService := Fin(fin))]);
        SommeServisRemplace(m.caisses, j, caisse);
        var r := Arrivee(s, caisseLibre, p, tirages);
        assert r.magasin.caisses == m.caisses[j := caisse];
        assert Horloge(r);
      case None =>
    }
  }

  /** A completion by the candidate register keeps the invariant. */
  lemma FinServiceInv(s: EtatBoucle, k: nat, p: Parametres, tirages: seq<real>)
    requires Inv(s, p, tirages) && TiragesPositifs(tirages)
    requires k < |s.magasin.caisses| && k == ProchaineCaisse(s.magasin.caisses)
    requires s.temps.Fin? && s.magasin.caisses[k].prochainService == s.temps
    requires s.curseur + 1 <= |tirages|
    ensures Inv(FinService(s, k, p, tirages), p, tirages)
  {
    var m := s.magasin;
    var t := s.temps.r;
    var r := FinService(s, k, p, tirages);
    if |m.file| != 0 {
      var client := m.file[|m.file| - 1].(tempsService := Fin(t));
      assert Le(Fin(client.momentArrivee), s.temps);
      if Le(TempsAttente(client), Fin(client.tolerance)) {
        var fin := t + tirages[s.curseur];
        var caisse := m.caisses[k].(prochainService := Fin(fin),
                                    clientsServis := m.caisses[k].clientsServis + [client]);
        SommeServisRemplace(m.caisses, k, caisse);
        assert r.magasin.caisses == m.caisses[k := caisse];
      }
    } else {
      var caisse := m.caisses[k].(libre := true, prochainService := Inf);
      SommeServisRemplace(m.caisses, k, caisse);
      assert r.magasin.caisses == m.caisses[k := caisse];
    }
  }

  /** One iteration keeps the invariant and never moves the clock backwards. */
  lemma StepInv(s: EtatBoucle, p: Parametres, tirages: seq<real>)
    requires Inv(s, p, tirages) && Continue(s, p, tirages) && TiragesPositifs(tirages)
    ensures Inv(Step(s, p, tirages), p, tirages)
    ensures Le(s.temps, Step(s, p, tirages).temps)
  {
    var s1 := Avance(s, p, ProchainEvenement(s));
    AvanceInv(s, p, tirages);
    if ClientArrive(s) && Lt(s1.temps, Fin(p.tempsSimulation)) {
      ArriveeInv(s1, PremiereLibre(s1.magasin.caisses), p, tirages);
    } else if !ClientArrive(s) {
      FinServiceInv(s1, Candidate(s), p, tirages);
    }
  }

  /** The whole loop keeps the invariant and never moves the clock backwards. */
  lemma {:induction false} RunInv(s: EtatBoucle, p: Parametres, tirages: seq<real>)
    requires Inv(s, p, tirages) && TiragesPositifs(tirages)
    ensures Inv(Run(s, p, tirages), p, tirages)
    ensures Le(s.temps, Run(s, p, tirages).temps)
    decreases if Lt(s.temps, Fin(p.tempsSimulation)) then 1 else 0,
              |tirages| - s.curseur, |s.magasin.file|, |Occupees(s.magasin.caisses)|
  {
    if Continue(s, p, tirages) {
      StepProgress(s, p, tirages);
      StepInv(s, p, tirages);
      RunInv(Step(s, p, tirages), p, tirages);
    }
  }
}
