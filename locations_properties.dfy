/** Properties of the location directory: what the generator adds and keeps, the shape
    of a generated table, and how the screen splits a city's list. */
module LocationsProperties {
  import opened Wrappers
  import opened Banks
  import opened Locations

  /** The generator inserts exactly the missing ids, leaves every existing table as it
      was, and gives each inserted id the table built from its bank's name. */
  lemma {:induction false} GenerateSpec(m: map<string, CityTable>, banks: seq<Bank>, ids: seq<string>)
    ensures Generate(m, banks, ids).Keys == m.Keys + set id | id in ids
    ensures forall id :: id in m ==> Generate(m, banks, ids)[id] == m[id]
    ensures forall id :: id in ids && id !in m ==> Generate(m, banks, ids)[id] == GeneratedEntry(BankName(banks, id))
  {
    GenerateKeys(m, banks, ids);
    if ids != [] {
      GenerateSpec(m, banks, ids[..|ids| - 1]);
      SplitLast(ids);
    }
  }

  lemma {:induction false} GenerateKeys(m: map<string, CityTable>, banks: seq<Bank>, ids: seq<string>)
    ensures Generate(m, banks, ids).Keys == m.Keys + set id | id in ids
  {
    if ids != [] {
      GenerateKeys(m, banks, ids[..|ids| - 1]);
      SplitLast(ids);
    }
  }

  lemma SplitLast(ids: seq<string>)
    requires ids != []
    ensures forall id :: id in ids <==> id in ids[..|ids| - 1] || id == ids[|ids| - 1]
  {
    assert ids == ids[..|ids| - 1] + [ids[|ids| - 1]];
  }

  /** Running the generator a second time changes nothing. */
  lemma GenerateIdempotent(m: map<string, CityTable>, banks: seq<Bank>)
    ensures WithGenerated(WithGenerated(m, banks), banks) == WithGenerated(m, banks)
  {
    var once := WithGenerated(m, banks);
    GenerateSpec(m, banks, GeneratedIds);
    GenerateSpec(once, banks, GeneratedIds);
  }

  /** The directory once the module has loaded. */
  function Loaded(banks: seq<Bank>): map<string, CityTable>
  {
    WithGenerated(HandWritten(), banks)
  }

  /** The hand-written tables of banks '1' and '2' are not overwritten. */
  lemma HandWrittenKept(banks: seq<Bank>)
    ensures "1" in Loaded(banks) && Loaded(banks)["1"] == HandWritten()["1"]
    ensures "2" in Loaded(banks) && Loaded(banks)["2"] == HandWritten()["2"]
  {
    GenerateSpec(HandWritten(), banks, GeneratedIds);
  }

  /** The generated ids are not among the hand-written ones. */
  lemma HandWrittenApart()
    ensures forall i :: 0 <= i < |GeneratedIds| ==> GeneratedIds[i] !in HandWritten()
  {
    assert forall i :: 0 <= i < |GeneratedIds| ==> GeneratedIds[i] != "1" && GeneratedIds[i] != "2";
  }

  /** Loading the module on a directory without tables for '3' to '11': afterwards each
      of those ids holds the table generated from its bank's name. */
  lemma AfterLoad(m: map<string, CityTable>, banks: seq<Bank>)
    requires forall i :: 0 <= i < |GeneratedIds| ==> GeneratedIds[i] !in m
    ensures forall i :: 0 <= i < |GeneratedIds| ==>
              GeneratedIds[i] in WithGenerated(m, banks) &&
              WithGenerated(m, banks)[GeneratedIds[i]] == GeneratedEntry(BankName(banks, GeneratedIds[i]))
  {
    GenerateSpec(m, banks, GeneratedIds);
  }

  /** Once the module has loaded, the directory holds exactly the ids '1' to '11'. */
  lemma LoadedKeys(banks: seq<Bank>)
    ensures Loaded(banks).Keys == {"1", "2"} + set id | id in GeneratedIds
  {
    GenerateSpec(HandWritten(), banks, GeneratedIds);
  }

  /** The catalogue lists the banks in id order, '1' to '11'. */
  lemma CatalogueIds(k: nat)
    requires 2 <= k < |Catalogue()|
    ensures Catalogue()[k].id == GeneratedIds[k - 2]
  {
  }

  /** Once the module has loaded, every bank of the catalogue has a table. */
  lemma CatalogueListed(banks: seq<Bank>, k: nat)
    requires k < |Catalogue()|
    ensures Catalogue()[k].id in Loaded(banks)
  {
    if k < 2 {
      HandWrittenListed(banks, k);
    } else {
      GeneratedListed(banks, k);
    }
  }

  lemma HandWrittenListed(banks: seq<Bank>, k: nat)
    requires k < 2
    ensures Catalogue()[k].id in Loaded(banks)
  {
    HandWrittenKept(banks);
    assert Catalogue()[0].id == "1" && Catalogue()[1].id == "2";
  }

  lemma GeneratedListed(banks: seq<Bank>, k: nat)
    requires 2 <= k < |Catalogue()|
    ensures Catalogue()[k].id in Loaded(banks)
  {
    CatalogueIds(k);
    HandWrittenApart();
    AfterLoad(HandWritten(), banks);
  }

  /** An id of '3' to '11' whose bank is found under a non-empty name gets the generated
      table labelled with that name. */
  lemma GeneratedUsesBankName(banks: seq<Bank>, i: nat, b: Bank)
    requires i < |GeneratedIds| && FindBank(banks, GeneratedIds[i]) == Some(b) && b.name != ""
    ensures GeneratedIds[i] in Loaded(banks) && Loaded(banks)[GeneratedIds[i]] == GeneratedEntry(b.name)
  {
    HandWrittenApart();
    AfterLoad(HandWritten(), banks);
  }

  /** Against the catalogue, each id of '3' to '11' finds its own bank, whose name is not
      empty, so the generated table carries the catalogue name. */
  lemma CatalogueNamesUsed(k: nat)
    requires 2 <= k < |Catalogue()|
    ensures FindBank(Catalogue(), GeneratedIds[k - 2]) == Some(Catalogue()[k])
    ensures Catalogue()[k].name != ""
  {
    CatalogueIds(k);
    CatalogueLookup(k);
  }

  /** `s` ends with `suffix`. */
  predicate EndsWith(s: string, suffix: string)
  {
    |suffix| <= |s| && s[|s| - |suffix|..] == suffix
  }

  /** A list made of one branch followed by ATMs splits into that branch and those ATMs. */
  lemma BranchThenAtms(locations: seq<Location>)
    requires |locations| >= 1 && locations[0].kind == Branch
    requires forall i :: 1 <= i < |locations| ==> locations[i].kind == Atm
    ensures Filter(locations, Branch) == [locations[0]]
    ensures Filter(locations, Atm) == locations[1..]
  {
    assert locations == [locations[0]] + locations[1..];
    FilterConcat([locations[0]], locations[1..], Branch);
    FilterConcat([locations[0]], locations[1..], Atm);
    FilterOfOtherKind(locations[1..], Branch);
    FilterOfSameKind(locations[1..], Atm);
  }

  /** A filled city template: one branch named after the bank, then the template's ATMs. */
  lemma FillShape(template: seq<Location>, bankName: string)
    requires |template| >= 1 && template[0].kind == Branch
    requires forall i :: 1 <= i < |template| ==> template[i].kind == Atm
    ensures |Filter(Fill(template, bankName), Branch)| == 1
    ensures EndsWith(Filter(Fill(template, bankName), Branch)[0].name, bankName)
    ensures Filter(Fill(template, bankName), Atm) == template[1..]
  {
    var filled := Fill(template, bankName);
    BranchThenAtms(filled);
    var name := filled[0].name;
    assert name == template[0].name + bankName;
    assert name[|name| - |bankName|..] == bankName;
  }

  /** Each city of a generated table has exactly one branch, named after the bank. */
  lemma GeneratedBranch(bankName: string, city: City)
    ensures |Filter(GeneratedEntry(bankName).At(city), Branch)| == 1
    ensures EndsWith(Filter(GeneratedEntry(bankName).At(city), Branch)[0].name, bankName)
  {
    TemplateShape(city);
    EntryFromTemplate(bankName, city);
    FillShape(Template(city), bankName);
  }

  /** A generated table has two ATMs in Quito and Guayaquil and one in Riobamba and
      Cuenca, all open around the clock. */
  lemma GeneratedAtms(bankName: string, city: City)
    ensures |Filter(GeneratedEntry(bankName).At(city), Atm)| == if city == Quito || city == Guayaquil then 2 else 1
    ensures forall x :: x in Filter(GeneratedEntry(bankName).At(city), Atm) ==> x.schedule == "24 horas" && x.services == None
  {
    TemplateShape(city);
    EntryFromTemplate(bankName, city);
    FillShape(Template(city), bankName);
  }

  /** Each city list of a generated table is that city's template, filled in. */
  lemma EntryFromTemplate(bankName: string, city: City)
    ensures GeneratedEntry(bankName).At(city) == Fill(Template(city), bankName)
  {
  }

  /** Each city template is a branch followed by its ATMs. */
  lemma TemplateShape(city: City)
    ensures |Template(city)| == if city == Quito || city == Guayaquil then 3 else 2
    ensures Template(city)[0].kind == Branch
    ensures forall i :: 1 <= i < |Template(city)| ==> Template(city)[i].kind == Atm
    ensures forall x :: x in Template(city)[1..] ==> x.schedule == "24 horas" && x.services == None
  {
  }

  /** Filtering distributes over concatenation and keeps the order of the list. */
  lemma {:induction false} FilterConcat(a: seq<Location>, b: seq<Location>, kind: LocationType)
    ensures Filter(a + b, kind) == Filter(a, kind) + Filter(b, kind)
  {
    if a != [] {
      assert (a + b)[1..] == a[1..] + b;
      FilterConcat(a[1..], b, kind);
    } else {
      assert a + b == b;
    }
  }

  /** A list of locations all of type `kind` passes the filter unchanged. */
  lemma {:induction false} FilterOfSameKind(locations: seq<Location>, kind: LocationType)
    requires forall i :: 0 <= i < |locations| ==> locations[i].kind == kind
    ensures Filter(locations, kind) == locations
  {
    if locations != [] {
      FilterOfSameKind(locations[1..], kind);
    }
  }

  /** A list with no location of type `kind` filters to nothing. */
  lemma {:induction false} FilterOfOtherKind(locations: seq<Location>, kind: LocationType)
    requires forall i :: 0 <= i < |locations| ==> locations[i].kind != kind
    ensures Filter(locations, kind) == []
  {
    if locations != [] {
      FilterOfOtherKind(locations[1..], kind);
    }
  }

  /** Filtering a second time by the same type changes nothing. */
  lemma {:induction false} FilterIdempotent(locations: seq<Location>, kind: LocationType)
    ensures Filter(Filter(locations, kind), kind) == Filter(locations, kind)
  {
    if locations != [] {
      var head := if locations[0].kind == kind then [locations[0]] else [];
      FilterConcat(head, Filter(locations[1..], kind), kind);
      FilterIdempotent(locations[1..], kind);
      assert Filter(head, kind) == head;
    }
  }

  /** The branch list and the ATM list together hold every location exactly once. */
  lemma {:induction false} FilterPartition(locations: seq<Location>)
    ensures multiset(Filter(locations, Branch)) + multiset(Filter(locations, Atm)) == multiset(locations)
  {
    if locations != [] {
      var rest := locations[1..];
      FilterPartition(rest);
      assert locations == [locations[0]] + rest;
      if locations[0].kind == Branch {
        assert Filter(locations, Branch) == [locations[0]] + Filter(rest, Branch);
        assert Filter(locations, Atm) == Filter(rest, Atm);
      } else {
        assert Filter(locations, Branch) == Filter(rest, Branch);
        assert Filter(locations, Atm) == [locations[0]] + Filter(rest, Atm);
      }
    }
  }

  /** The screen lists every location of the chosen bank and city, each under its type. */
  lemma ScreenShowsEverything(banks: seq<Bank>, data: map<string, CityTable>, bankId: string, city: City)
    ensures multiset(ScreenView(banks, data, bankId, city).branches) + multiset(ScreenView(banks, data, bankId, city).atms)
            == multiset(CityLocations(data, bankId, city))
    ensures forall x :: x in ScreenView(banks, data, bankId, city).branches ==> x.kind == Branch
    ensures forall x :: x in ScreenView(banks, data, bankId, city).atms ==> x.kind == Atm
  {
    FilterPartition(CityLocations(data, bankId, city));
  }

  /** A bank id without a table shows two empty lists. */
  lemma UnknownBankShowsNothing(banks: seq<Bank>, bankId: string, city: City)
    requires bankId !in HandWritten() && bankId !in GeneratedIds
    ensures ScreenView(banks, Loaded(banks), bankId, city).branches == []
    ensures ScreenView(banks, Loaded(banks), bankId, city).atms == []
  {
    GenerateSpec(HandWritten(), banks, GeneratedIds);
  }

  /** The same id names no bank of the catalogue either, so by the contract of
      `FindBank` the header has no bank. */
  lemma UnknownBankNotInCatalogue(bankId: string, k: nat)
    requires bankId !in HandWritten() && bankId !in GeneratedIds
    requires k < |Catalogue()|
    ensures Catalogue()[k].id != bankId
  {
    if k < 2 {
        assert Catalogue()[0].id == "1" && Catalogue()[1].id == "2";
    } else {
      CatalogueIds(k);
    }
  }
}
