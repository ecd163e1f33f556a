/** The two register-selection rules of the store. */
module Selection {
  import opened Temps
  import opened Entites

  datatype Option<T> = None | Some(value: T)

  /**
   * The register with the earliest completion, as Python's `min` with a key picks it:
   * scanning left to right and replacing the candidate only on a strictly smaller key,
   * so ties go to the lowest index.
   */
  function ProchaineCaisse(cs: seq<EtatCaisse>): (k: nat)
    requires |cs| > 0
    ensures k < |cs|
    ensures forall j :: 0 <= j < |cs| ==> Le(cs[k].prochainService, cs[j].prochainService)
    ensures forall j :: 0 <= j < k ==> Lt(cs[k].prochainService, cs[j].prochainService)
    decreases |cs|
  {
    if |cs| == 1 then 0
    else
      var k := ProchaineCaisse(cs[..|cs| - 1]);
      if Lt(cs[|cs| - 1].prochainService, cs[k].prochainService) then |cs| - 1 else k
  }

  /** The lowest-index free register, or `None` when every register is busy. */
  function PremiereLibre(cs: seq<EtatCaisse>): (r: Option<nat>)
    ensures r.None? <==> forall j :: 0 <= j < |cs| ==> !cs[j].libre
    ensures r.Some? ==> r.value < |cs| && cs[r.value].libre
    ensures r.Some? ==> forall j :: 0 <= j < r.value ==> !cs[j].libre
  {
    if |cs| == 0 then None
    else if cs[0].libre then Some(0)
    else
      match PremiereLibre(cs[1..])
      case None => None
      case Some(j) => Some(j + 1)
  }
}
