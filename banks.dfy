/** The part of the bank catalogue (data/banks.ts) that the two screens read:
    each bank's id, display name and credit rates. */
module Banks {
  import opened Wrappers

  /** `services.credits.rates`: three annual percentages. */
  datatype Rates = Rates(savings: real, mortgage: real, personal: real)

  datatype Bank = Bank(id: string, name: string, rates: Rates)

  predicate PositiveRates(r: Rates)
  {
    r.savings > 0.0 && r.mortgage > 0.0 && r.personal > 0.0
  }

  /** The catalogue as shipped, in order. */
  function Catalogue(): (r: seq<Bank>)
    ensures |r| == 11
    ensures forall k :: 0 <= k < |r| ==> r[k].name != "" && PositiveRates(r[k].rates)
  {
    [ Bank("1", "Banco Pichincha", Rates(3.5, 7.9, 15.5)),
      Bank("2", "Banco Guayaquil", Rates(3.75, 8.5, 16.0)),
      Bank("3", "Banco Produbanco", Rates(3.25, 8.75, 15.75)),
      Bank("4", "Banco del Pacífico", Rates(3.8, 8.2, 15.8)),
      Bank("5", "Banco Bolivariano", Rates(3.6, 8.0, 15.2)),
      Bank("6", "Banco Internacional", Rates(4.0, 8.8, 16.5)),
      Bank("7", "Banco Amazonas", Rates(3.4, 7.8, 14.8)),
      Bank("8", "Banco Solidario", Rates(2.8, 9.2, 18.5)),
      Bank("9", "Banco Nacional de Fomento", Rates(2.5, 6.8, 12.5)),
      Bank("10", "Banco Central del Ecuador", Rates(1.5, 5.5, 8.0)),
      Bank("11", "Banco ProCredit", Rates(3.9, 8.4, 16.2)) ]
  }

  /** `banks.find(bank => bank.id === id)`: the first bank with that id, if any. */
  function FindBank(banks: seq<Bank>, id: string): (r: Option<Bank>)
    ensures r.Some? ==> r.value in banks && r.value.id == id
    ensures r.Some? ==> exists k :: 0 <= k < |banks| && banks[k] == r.value
                                    && forall j :: 0 <= j < k ==> banks[j].id != id
    ensures r.None? <==> forall b :: b in banks ==> b.id != id
  {
    if banks == [] then None
    else if banks[0].id == id then Some(banks[0])
    else
      var r := FindBank(banks[1..], id);
      if r.Some? then
        var k :| 0 <= k < |banks[1..]| && banks[1..][k] == r.value
                 && forall j :: 0 <= j < k ==> banks[1..][j].id != id;
        assert banks[k + 1] == r.value;
        r
      else
        assert forall b :: b in banks ==> b == banks[0] || b in banks[1..];
        r
  }

  /** Each catalogue bank is what a lookup by its own id returns: no earlier bank
      shares its id. */
  lemma {:induction false} CatalogueLookup(k: nat)
    requires k < |Catalogue()|
    ensures FindBank(Catalogue(), Catalogue()[k].id) == Some(Catalogue()[k])
  {
    var c := Catalogue();
    forall j | 0 <= j < |c| && j != k ensures c[j].id != c[k].id {
      IdsDistinct(j, k);
    }
    FindFirst(c, k);
  }

  lemma IdsDistinct(j: nat, k: nat)
    requires j < |Catalogue()| && k < |Catalogue()| && j != k
    ensures Catalogue()[j].id != Catalogue()[k].id
  {
    var c := Catalogue();
    assert c[j].id != c[k].id;
  }

  /** `find` returns the bank at position k when no other bank has its id. */
  lemma {:induction false} FindFirst(banks: seq<Bank>, k: nat)
    requires k < |banks|
    requires forall j :: 0 <= j < k ==> banks[j].id != banks[k].id
    ensures FindBank(banks, banks[k].id) == Some(banks[k])
  {
    if k > 0 {
      FindFirst(banks[1..], k - 1);
    }
  }
}
