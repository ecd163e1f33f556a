/**
 * The store as the program runs it: registers and the store are objects updated in place,
 * and `Magasin.Simule` is the event loop, proved to compute `Evenement.Run`.
 */
module Simulation {
  import opened Temps
  import opened Entites
  import opened Selection
  import opened Evenement
  import opened Invariants
  import opened Proprietes

  /** A checkout register. */
  class Caisse {
    const numCaisse: nat
    var prochainService: Instant
    var libre: bool
    var clientsServis: seq<Client>

    function Vue(): EtatCaisse
      reads this
    {
      EtatCaisse(libre, prochainService, clientsServis)
    }

    constructor (identification: nat)
      ensures numCaisse == identification
      ensures Vue() == CaisseNeuve
    {
      numCaisse := identification;
      prochainService := Inf;
      libre := true;
      clientsServis := [];
    }

    predicate EstLibre()
      reads this
    {
      libre
    }

    method ChangeOccupation(valeur: bool)
      modifies this
      ensures Vue() == old(Vue()).(libre := valeur)
    {
      libre := valeur;
    }

    method ChangeProchainService(temps: Instant)
      modifies this
      ensures Vue() == old(Vue()).(prochainService := temps)
    {
      prochainService := temps;
    }

    method TraiterNouveauClient(client: Client)
      modifies this
      ensures Vue() == old(Vue()).(clientsServis := old(clientsServis) + [client])
    {
      clientsServis := clientsServis + [client];
    }
  }

  /** The states of a sequence of registers, in order. */
  function Vues(cs: seq<Caisse>): (r: seq<EtatCaisse>)
    reads cs
    ensures |r| == |cs|
    ensures forall i :: 0 <= i < |cs| ==> r[i] == cs[i].Vue()
  {
    seq(|cs|, i requires 0 <= i < |cs| reads cs => cs[i].Vue())
  }

  /** The store: its registers, its waiting line and its counters. */
  class Magasin {
    const caisses: seq<Caisse>
    var file: seq<Client>
    var nbClientsTotal: nat
    var nbClientsTraites: nat
    var nbClientsPartis: nat
    var benefice: real
    var manqueGagner: real
    var coutsRearrangement: real
    var espClientMagasin: real
    var espClientFile: real
    var espTempsMagasin: real
    var espTempsFile: real

    /** Registers are distinct objects numbered by their position. */
    predicate Valid()
    {
      (forall i, j :: 0 <= i < j < |caisses| ==> caisses[i] != caisses[j]) &&
      (forall i :: 0 <= i < |caisses| ==> caisses[i].numCaisse == i)
    }

    function Vue(): EtatMagasin
      reads this, caisses
    {
      EtatMagasin(Vues(caisses), file, nbClientsTotal, nbClientsTraites, nbClientsPartis,
                  benefice, manqueGagner, coutsRearrangement,
                  espClientMagasin, espClientFile, espTempsMagasin, espTempsFile)
    }

    constructor (nbreCaisses: nat)
      ensures Valid() && |caisses| == nbreCaisses
      ensures Vue() == Neuf(nbreCaisses)
    {
      var cs: seq<Caisse> := [];
      var numero := 0;
      while numero < nbreCaisses
        invariant numero <= nbreCaisses && |cs| == numero
        invariant forall i, j :: 0 <= i < j < |cs| ==> cs[i] != cs[j]
        invariant forall i :: 0 <= i < |cs| ==> cs[i].numCaisse == i && cs[i].Vue() == CaisseNeuve
      {
        var c := new Caisse(numero);
        cs := cs + [c];
        numero := numero + 1;
      }
      caisses := cs;
      file := [];
      nbClientsTotal, nbClientsTraites, nbClientsPartis := 0, 0, 0;
      benefice, manqueGagner, coutsRearrangement := 0.0, 0.0, 0.0;
      espClientMagasin, espClientFile, espTempsMagasin, espTempsFile := 0.0, 0.0, 0.0, 0.0;
      new;
      assert Vues(caisses) == Neuf(nbreCaisses).caisses;
    }

    /** The register that completes first; ties go to the lowest number. */
    function DonneProchaineCaisse(): (k: nat)
      reads caisses
      requires |caisses| > 0
      ensures k < |caisses|
      ensures forall j :: 0 <= j < |caisses| ==> Le(caisses[k].prochainService, caisses[j].prochainService)
      ensures forall j :: 0 <= j < k ==> Lt(caisses[k].prochainService, caisses[j].prochainService)
    {
      ProchaineCaisse(Vues(caisses))
    }

    /** The first free register, or `None` when all are busy. */
    method DonneCaisseLibre() returns (r: Option<nat>)
      ensures r == PremiereLibre(Vues(caisses))
      ensures r.Some? ==> r.value < |caisses| && caisses[r.value].libre
      ensures r.None? ==> forall j :: 0 <= j < |caisses| ==> !caisses[j].libre
    {
      var i := 0;
      while i < |caisses|
        invariant i <= |caisses|
        invariant forall j :: 0 <= j < i ==> !caisses[j].libre
      {
        if caisses[i].EstLibre() {
          return Some(i);
        }
        i := i + 1;
      }
      return None;
    }

    /** The four time-weighted accumulators, in the order the report reads them. */
    function DonneEsperances(): (r: seq<real>)
      reads this
      ensures |r| == 4
      ensures r[0] == espClientMagasin && r[1] == espClientFile
      ensures r[2] == espTempsMagasin && r[3] == espTempsFile
    {
      [espClientMagasin, espClientFile, espTempsMagasin, espTempsFile]
    }

    /** Free register `j` serves a customer who just arrived at `temps`, until `fin`. */
    method ServirDirectement(j: nat, client: Client, temps: real, fin: real, beneficeCadi: real)
      requires j < |caisses|
      requires forall i :: 0 <= i < |caisses| && i != j ==> caisses[i] != caisses[j]
      modifies this, caisses[j]
      ensures Vue() == ServiceDirect(old(Vue()), j, client, temps, fin, beneficeCadi)
    {
      var caisseLibre := caisses[j];
      var servi := client.(tempsService := Fin(fin));
      caisseLibre.TraiterNouveauClient(servi);
      caisseLibre.ChangeOccupation(false);
      caisseLibre.ChangeProchainService(Fin(fin));
      nbClientsTraites := nbClientsTraites + 1;
      benefice := benefice + client.cadi * beneficeCadi;
      espTempsMagasin := espTempsMagasin + (fin - temps);
    }

    /** Register `k`, just completed at `temps`, serves a customer taken from the line, until `fin`. */
    method ServirDepuisFile(k: nat, client: Client, temps: real, fin: real, beneficeCadi: real)
      requires k < |caisses| && client.tempsService == Fin(temps)
      requires forall i :: 0 <= i < |caisses| && i != k ==> caisses[i] != caisses[k]
      modifies this, caisses[k]
      ensures Vue() == ServiceFile(old(Vue()), k, client, temps, fin, beneficeCadi)
    {
      var prochaineCaisse := caisses[k];
      prochaineCaisse.ChangeProchainService(Fin(fin));
      prochaineCaisse.TraiterNouveauClient(client);
      nbClientsTraites := nbClientsTraites + 1;
      benefice := benefice + client.cadi * beneficeCadi;
      espTempsFile := espTempsFile + TempsAttente(client).r;
      espClientMagasin := espClientMagasin + (fin - temps);
    }

    /** Register `k` becomes free. */
    method LibererCaisse(k: nat)
      requires k < |caisses|
      requires forall i :: 0 <= i < |caisses| && i != k ==> caisses[i] != caisses[k]
      modifies caisses[k]
      ensures Vue() == Liberation(old(Vue()), k)
    {
      var prochaineCaisse := caisses[k];
      prochaineCaisse.ChangeOccupation(true);
      prochaineCaisse.ChangeProchainService(Inf);
    }

    /** An arrival at `temps`, before the horizon, with `caisseLibre` the free register looked up beforehand. */
    method TraiteArrivee(temps: real, caisseLibre: Option<nat>, nbClients: int, curseur: nat,
                         prochaineArrivee: Instant, p: Parametres, tirages: seq<real>)
      returns (nbClients': int, prochaineArrivee': Instant, curseur': nat)
      requires Valid() && curseur + TiragesParEvenement <= |tirages|
      requires caisseLibre.Some? ==> caisseLibre.value < |caisses|
      modifies this, caisses
      ensures EtatBoucle(Vue(), Fin(temps), prochaineArrivee', nbClients', curseur') ==
              Arrivee(EtatBoucle(old(Vue()), Fin(temps), prochaineArrivee, nbClients, curseur), caisseLibre, p, tirages)
    {
      var client := Client(temps, Inf, tirages[curseur], tirages[curseur + 1]);
      nbClients' := nbClients + 1;
      nbClientsTotal := nbClientsTotal + 1;
      prochaineArrivee' := Fin(temps + tirages[curseur + 2]);
      curseur' := curseur + 3;
      if Lt(prochaineArrivee', Fin(p.tempsSimulation)) {
        if caisseLibre.Some? {
          ServirDirectement(caisseLibre.value, client, temps, temps + tirages[curseur'], p.beneficeCadi);
          curseur' := curseur' + 1;
        } else {
          file := file + [client];
        }
      } else {
        prochaineArrivee' := Inf;
      }
    }

    /** Register `k` completes at `temps` (the completion branch of the loop). */
    method TraiteFinService(k: nat, temps: real, nbClients: int, curseur: nat,
                            prochaineArrivee: Instant, p: Parametres, tirages: seq<real>)
      returns (nbClients': int, curseur': nat)
      requires Valid() && k < |caisses| && curseur + 1 <= |tirages|
      modifies this, caisses
      ensures EtatBoucle(Vue(), Fin(temps), prochaineArrivee, nbClients', curseur') ==
              FinService(EtatBoucle(old(Vue()), Fin(temps), prochaineArrivee, nbClients, curseur), k, p, tirages)
    {
      nbClients', curseur' := nbClients, curseur;
      if |file| != 0 {
        var client := file[|file| - 1];
        file := file[..|file| - 1];
        client := client.(tempsService := Fin(temps));
        if Le(TempsAttente(client), Fin(client.tolerance)) {
          ServirDepuisFile(k, client, temps, temps + tirages[curseur], p.beneficeCadi);
          curseur' := curseur + 1;
        } else {
          manqueGagner := manqueGagner + client.cadi * p.beneficeCadi;
          coutsRearrangement := coutsRearrangement + p.coutRearrangement;
          nbClientsPartis := nbClientsPartis + 1;
        }
        nbClients' := nbClients - 1;
      } else {
        LibererCaisse(DonneProchaineCaisse());
      }
    }

    /** Adds the interval from `temps` to `evenement` to the occupancy integrals, before the horizon. */
    method Accumule(nbClients: int, temps: real, evenement: Instant, tempsSimulation: real)
      modifies this
      ensures Vue() == Cumul(old(Vue()), nbClients, temps, evenement, tempsSimulation)
    {
      if Lt(evenement, Fin(tempsSimulation)) {
        espClientMagasin := espClientMagasin + nbClients as real * (evenement.r - temps);
        espClientFile := espClientFile + |file| as real * (evenement.r - temps);
      }
    }

    /** One iteration of the event loop: advance the clock to the next event and handle it. */
    method Etape(temps: Instant, prochaineArrivee: Instant, nbClients: int, curseur: nat,
                 p: Parametres, tirages: seq<real>)
      returns (temps': Instant, prochaineArrivee': Instant, nbClients': int, curseur': nat)
      requires Valid() && |caisses| > 0
      requires Continue(EtatBoucle(Vue(), temps, prochaineArrivee, nbClients, curseur), p, tirages)
      modifies this, caisses
      ensures EtatBoucle(Vue(), temps', prochaineArrivee', nbClients', curseur') ==
              Step(EtatBoucle(old(Vue()), temps, prochaineArrivee, nbClients, curseur), p, tirages)
    {
      ghost var avant := EtatBoucle(Vue(), temps, prochaineArrivee, nbClients, curseur);
      var prochaineCaisse := DonneProchaineCaisse();
      var tempsProchainService := caisses[prochaineCaisse].prochainService;
      var clientArrive := Le(prochaineArrivee, tempsProchainService);
      temps' := if clientArrive then prochaineArrivee else tempsProchainService;
      ghost var s1 := Avance(avant, p, temps');
      assert prochaineCaisse == Candidate(avant) && clientArrive == ClientArrive(avant);
      Accumule(nbClients, temps.r, temps', p.tempsSimulation);
      assert EtatBoucle(Vue(), temps', prochaineArrivee, nbClients, curseur) == s1;
      var caisseLibre := DonneCaisseLibre();
      assert caisseLibre == PremiereLibre(s1.magasin.caisses);
      assert Step(avant, p, tirages) ==
        if clientArrive && Lt(temps', Fin(p.tempsSimulation)) then Arrivee(s1, caisseLibre, p, tirages)
        else if !clientArrive then FinService(s1, prochaineCaisse, p, tirages)
        else s1;
      prochaineArrivee', nbClients', curseur' := prochaineArrivee, nbClients, curseur;
      if clientArrive && Lt(temps', Fin(p.tempsSimulation)) {
        nbClients', prochaineArrivee', curseur' :=
          TraiteArrivee(temps'.r, caisseLibre, nbClients, curseur, prochaineArrivee, p, tirages);
      } else if !clientArrive {
        nbClients', curseur' :=
          TraiteFinService(prochaineCaisse, temps'.r, nbClients, curseur, prochaineArrivee, p, tirages);
      }
    }

    /**
     * The event loop: runs the store from time 0 until the horizon (or until fewer draws
     * remain than one event may need), starting from whatever state the store is in.
     */
    method Simule(tempsSimulation: real, beneficeCadi: real, coutRearrangement: real, tirages: seq<real>)
      requires Valid() && |caisses| > 0
      requires forall i :: 0 <= i < |caisses| ==> Coherente(caisses[i].Vue())
      modifies this, caisses
      ensures var p := Parametres(tempsSimulation, beneficeCadi, coutRearrangement);
        Vue() == Run(Depart(old(Vue()), tirages), p, tirages).magasin
      ensures old(Vue()) == Neuf(|caisses|) && TiragesPositifs(tirages) ==>
        Bilan(Vue(), Parametres(tempsSimulation, beneficeCadi, coutRearrangement))
    {
      var p := Parametres(tempsSimulation, beneficeCadi, coutRearrangement);
      ghost var debut := Depart(Vue(), tirages);
      var nbClients := 0;
      var temps := Fin(0.0);
      var prochaineArrivee := Inf;
      var curseur: nat := 0;
      if |tirages| > 0 {
        prochaineArrivee := Fin(tirages[0]);
        curseur := 1;
      }
      while Lt(temps, Fin(tempsSimulation)) && curseur + TiragesParEvenement <= |tirages|
        invariant Bien(EtatBoucle(Vue(), temps, prochaineArrivee, nbClients, curseur), tirages)
        invariant Run(EtatBoucle(Vue(), temps, prochaineArrivee, nbClients, curseur), p, tirages) == Run(debut, p, tirages)
        decreases if Lt(temps, Fin(tempsSimulation)) then 1 else 0, |tirages| - curseur, |file|, |Occupees(Vues(caisses))|
      {
        StepProgress(EtatBoucle(Vue(), temps, prochaineArrivee, nbClients, curseur), p, tirages);
        temps, prochaineArrivee, nbClients, curseur := Etape(temps, prochaineArrivee, nbClients, curseur, p, tirages);
      }
      if old(Vue()) == Neuf(|caisses|) && TiragesPositifs(tirages) {
        SimulationDepuisNeuf(|caisses|, p, tirages);
      }
    }
  }

  /** Net revenue: profit, less rearrangement costs, less the registers' running cost over the horizon. */
  function Recette(benefice: real, coutsRearrangement: real, nbreServeurs: nat, coutCaisse: real,
                   tempsSimulation: real): (r: real)
    ensures r + coutsRearrangement + nbreServeurs as real * coutCaisse * tempsSimulation == benefice
  {
    benefice - coutsRearrangement - (nbreServeurs as real * coutCaisse * tempsSimulation)
  }

  /**
   * What the net revenue of store `m`, with `n` registers, amounts to: the profit less the
   * per-departure cost of each customer lost and the registers' running cost, and at most the
   * profit when every cost is non-negative.
   */
  predicate RecetteConforme(m: EtatMagasin, n: nat, coutRearrangement: real, coutCaisse: real, tempsSimulation: real)
  {
    var r := Recette(m.benefice, m.coutsRearrangement, n, coutCaisse, tempsSimulation);
    r == m.benefice - m.nbClientsPartis as real * coutRearrangement - n as real * coutCaisse * tempsSimulation &&
    (coutRearrangement >= 0.0 && coutCaisse >= 0.0 && tempsSimulation >= 0.0 ==> r <= m.benefice)
  }

  /** The net revenue of a store with a sound balance sheet is as described. */
  lemma RecetteDe(m: EtatMagasin, n: nat, p: Parametres, coutCaisse: real)
    requires Bilan(m, p)
    ensures RecetteConforme(m, n, p.coutRearrangement, coutCaisse, p.tempsSimulation)
  {
    var coutRearrangement, tempsSimulation := p.coutRearrangement, p.tempsSimulation;
    CoutCumuleProduit(m.nbClientsPartis, coutRearrangement);
    if coutRearrangement >= 0.0 && coutCaisse >= 0.0 && tempsSimulation >= 0.0 {
      ProduitPositif(m.nbClientsPartis as real, coutRearrangement);
      ProduitPositif(n as real, coutCaisse);
      ProduitPositif(n as real * coutCaisse, tempsSimulation);
    }
  }

  /** After a run from a store as created, the net revenue is as described. */
  lemma RecetteNette(n: nat, p: Parametres, coutCaisse: real, tirages: seq<real>)
    requires n > 0 && TiragesPositifs(tirages)
    ensures RecetteConforme(Run(Depart(Neuf(n), tirages), p, tirages).magasin, n, p.coutRearrangement, coutCaisse, p.tempsSimulation)
  {
    SimulationDepuisNeuf(n, p, tirages);
    RecetteDe(Run(Depart(Neuf(n), tirages), p, tirages).magasin, n, p, coutCaisse);
  }

  /** The simulation façade: one configuration, one fresh store, one run. */
  class Simulation {
    const cadiMax: real
    const beneficeCadi: real
    const coutsRearrangement: real
    const coutCaisse: real
    const variableArrivee: real
    const variableTempsService: real
    const variableAttenteMax: real
    const beta: real
    const nbreServeurs: nat
    const tempsSimulation: real
    const magasin: Magasin
    var recette: real

    constructor (x: real, y: real, z: real, w: real, lam: real, mu: real, alpha: real, beta: real,
                 nbreServeurs: nat, tempsSimulation: real)
      ensures cadiMax == x && beneficeCadi == y && coutsRearrangement == z && coutCaisse == w
      ensures variableArrivee == lam && variableTempsService == mu && variableAttenteMax == alpha
      ensures this.beta == beta && this.nbreServeurs == nbreServeurs && this.tempsSimulation == tempsSimulation
      ensures fresh(magasin) && magasin.Valid() && |magasin.caisses| == nbreServeurs
      ensures magasin.Vue() == Neuf(nbreServeurs) && recette == 0.0
    {
      cadiMax, beneficeCadi, coutsRearrangement, coutCaisse := x, y, z, w;
      variableArrivee, variableTempsService, variableAttenteMax, this.beta := lam, mu, alpha, beta;
      this.nbreServeurs, this.tempsSimulation := nbreServeurs, tempsSimulation;
      magasin := new Magasin(nbreServeurs);
      recette := 0.0;
    }

    /** Runs the store once and derives the net revenue from its counters. */
    method SimulationMagasin(tirages: seq<real>)
      requires magasin.Valid() && |magasin.caisses| == nbreServeurs > 0
      requires forall i :: 0 <= i < |magasin.caisses| ==> Coherente(magasin.caisses[i].Vue())
      modifies this, magasin, magasin.caisses
      ensures magasin.Vue() ==
              Run(Depart(old(magasin.Vue()), tirages), Parametres(tempsSimulation, beneficeCadi, coutsRearrangement), tirages).magasin
      ensures recette == Recette(magasin.benefice, magasin.coutsRearrangement, nbreServeurs, coutCaisse, tempsSimulation)
      ensures old(magasin.Vue()) == Neuf(nbreServeurs) && TiragesPositifs(tirages) ==>
        Bilan(magasin.Vue(), Parametres(tempsSimulation, beneficeCadi, coutsRearrangement)) &&
        RecetteConforme(magasin.Vue(), nbreServeurs, coutsRearrangement, coutCaisse, tempsSimulation)
    {
      magasin.Simule(tempsSimulation, beneficeCadi, coutsRearrangement, tirages);
      recette := Recette(magasin.benefice, magasin.coutsRearrangement, nbreServeurs, coutCaisse, tempsSimulation);
      if old(magasin.Vue()) == Neuf(nbreServeurs) && TiragesPositifs(tirages) {
        RecetteDe(magasin.Vue(), nbreServeurs, Parametres(tempsSimulation, beneficeCadi, coutsRearrangement), coutCaisse);
      }
    }
  }
}
