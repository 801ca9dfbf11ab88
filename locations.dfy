/** The branch and ATM directory of screens/LocationScreen.tsx: the per-bank table of
    locations by city, the generator that fills in banks without a hand-written table,
    and the lookup that splits a city's locations into branches and ATMs. */
module Locations {
  import opened Wrappers
  import opened Banks

  /** `Location.type`: 'branch' | 'atm'. */
  datatype LocationType = Branch | Atm

  /** `Location`; the optional `services` list is `None` when absent. */
  datatype Location = Location(name: string, address: string, schedule: string, kind: LocationType,
                               services: Option<seq<string>>)

  /** `City`: 'quito' | 'guayaquil' | 'riobamba' | 'cuenca'. */
  datatype City = Quito | Guayaquil | Riobamba | Cuenca

  /** `{ [city in City]: Location[] }`: one list for each of the four cities. */
  datatype CityTable = CityTable(quito: seq<Location>, guayaquil: seq<Location>,
                                 riobamba: seq<Location>, cuenca: seq<Location>)
  {
    function At(city: City): seq<Location>
    {
      match city
      case Quito => quito
      case Guayaquil => guayaquil
      case Riobamba => riobamba
      case Cuenca => cuenca
    }
  }

  function NewBranch(name: string, address: string, schedule: string, services: seq<string>): Location
  {
    Location(name, address, schedule, Branch, Some(services))
  }

  /** Every ATM in the directory is open around the clock and lists no services. */
  function NewAtm(name: string, address: string): Location
  {
    Location(name, address, "24 horas", Atm, None)
  }

  /** The two hand-written tables, for Banco Pichincha ('1') and Banco Guayaquil ('2'). */
  function HandWritten(): (m: map<string, CityTable>)
    ensures m.Keys == {"1", "2"}
  {
    map["1" := PichinchaTable, "2" := GuayaquilTable]
  }

  const PichinchaTable: CityTable :=
    CityTable(
        [ NewBranch("Sucursal Matriz Quito", "Av. Amazonas N39-34 y Pereira, Quito", "Lun-Vie: 9:00-17:00, Sáb: 9:00-13:00", ["Cuentas", "Créditos", "Seguros", "Cajero"]),
          NewBranch("Sucursal La Carolina", "Av. Naciones Unidas y 10 de Agosto, Quito", "Lun-Vie: 9:00-17:00, Sáb: 9:00-13:00", ["Cuentas", "Créditos", "Cajero"]),
          NewBranch("Agencia CCI", "Av. Amazonas y Naciones Unidas, CCI, Quito", "Lun-Dom: 10:00-22:00", ["Cuentas", "Cajero"]),
          NewAtm("ATM El Ejido", "Av. Patria y 6 de Diciembre, Quito"),
          NewAtm("ATM Quicentro Sur", "Av. Morán Valverde y Quitumbe Ñan, Quito") ],
        [ NewBranch("Sucursal Guayaquil Centro", "Av. 9 de Octubre 100 y Malecón, Guayaquil", "Lun-Vie: 9:00-17:00, Sáb: 9:00-13:00", ["Cuentas", "Créditos", "Seguros", "Cajero"]),
          NewBranch("Agencia Mall del Sol", "Av. Juan Tanca Marengo, Mall del Sol, Guayaquil", "Lun-Dom: 10:00-22:00", ["Cuentas", "Cajero"]),
          NewAtm("ATM Malecón 2000", "Malecón Simón Bolívar, Guayaquil"),
          NewAtm("ATM Aeropuerto José Joaquín de Olmedo", "Av. de las Américas, Aeropuerto, Guayaquil") ],
        [ NewBranch("Sucursal Riobamba", "Av. Daniel León Borja y Primera Constituyente, Riobamba", "Lun-Vie: 9:00-17:00, Sáb: 9:00-13:00", ["Cuentas", "Créditos", "Cajero"]),
          NewAtm("ATM Parque Maldonado", "Calle Primera Constituyente y 5 de Junio, Riobamba"),
          NewAtm("ATM Terminal Terrestre", "Av. La Prensa, Terminal Terrestre, Riobamba") ],
        [ NewBranch("Sucursal Cuenca Centro", "Calle Bolívar 9-20 y Benigno Malo, Cuenca", "Lun-Vie: 9:00-17:00, Sáb: 9:00-13:00", ["Cuentas", "Créditos", "Seguros", "Cajero"]),
          NewAtm("ATM Parque Calderón", "Calle Sucre y Benigno Malo, Cuenca"),
          NewAtm("ATM Mall del Río", "Av. Felipe II, Mall del Río, Cuenca") ])

  const GuayaquilTable: CityTable :=
    CityTable(
        [ NewBranch("Sucursal Quito Norte", "Av. Eloy Alfaro N39-61 y Portugal, Quito", "Lun-Vie: 9:00-17:00, Sáb: 9:00-13:00", ["Cuentas", "Créditos", "Seguros", "Cajero"]),
          NewAtm("ATM El Bosque", "Av. Al Napo y Río Coca, Quito") ],
        [ NewBranch("Sucursal Matriz Guayaquil", "P. Icaza 200 y Pichincha, Guayaquil", "Lun-Vie: 9:00-17:00, Sáb: 9:00-13:00", ["Cuentas", "Créditos", "Seguros", "Cajero"]),
          NewBranch("Sucursal Kennedy", "Av. Francisco de Orellana y 9na Este, Guayaquil", "Lun-Vie: 9:00-17:00, Sáb: 9:00-13:00", ["Cuentas", "Créditos", "Cajero"]),
          NewAtm("ATM City Mall", "Av. de las Américas, City Mall, Guayaquil") ],
        [ NewBranch("Agencia Riobamba", "Calle 10 de Agosto y Espejo, Riobamba", "Lun-Vie: 9:00-17:00", ["Cuentas", "Cajero"]),
          NewAtm("ATM Centro Comercial Paseo Shopping", "Av. Canónigo Ramos, Paseo Shopping, Riobamba") ],
        [ NewBranch("Sucursal Cuenca", "Av. Solano 1-38 y Hermano Miguel, Cuenca", "Lun-Vie: 9:00-17:00, Sáb: 9:00-13:00", ["Cuentas", "Créditos", "Cajero"]),
          NewAtm("ATM Universidad de Cuenca", "Av. 12 de Abril, Universidad de Cuenca, Cuenca") ])

  /** The ids the generator walks through, in order. */
  const GeneratedIds: seq<string> := ["3", "4", "5", "6", "7", "8", "9", "10", "11"]

  /** `banks.find(b => b.id === bankId)?.name || 'Banco'`: the bank's name, or 'Banco'
      when no bank has the id or its name is the empty string. */
  function BankName(banks: seq<Bank>, bankId: string): (name: string)
    ensures name != ""
    ensures name == "Banco" || exists b :: b in banks && b.id == bankId && b.name == name
    ensures (forall b :: b in banks ==> b.id != bankId) ==> name == "Banco"
    ensures FindBank(banks, bankId).Some? && FindBank(banks, bankId).value.name != "" ==>
              name == FindBank(banks, bankId).value.name
    ensures FindBank(banks, bankId).Some? && FindBank(banks, bankId).value.name == "" ==> name == "Banco"
  {
    match FindBank(banks, bankId)
    case Some(b) => if b.name != "" then b.name else "Banco"
    case None => "Banco"
  }

  /** The generated lists of each city before the bank's name is put in: a branch whose
      name ends with a space, followed by the city's ATMs. */
  const QuitoTemplate: seq<Location> :=
    [ NewBranch("Sucursal Quito ", "Av. Amazonas y Colón, Quito", "Lun-Vie: 9:00-17:00, Sáb: 9:00-13:00", ["Cuentas", "Créditos", "Cajero"]),
      NewAtm("ATM Quito Centro", "Av. 10 de Agosto y Colón, Quito"),
      NewAtm("ATM Quicentro Norte", "Av. Eloy Alfaro y Amazonas, Quito") ]
  const GuayaquilTemplate: seq<Location> :=
    [ NewBranch("Sucursal Guayaquil ", "Av. 9 de Octubre y Luque, Guayaquil", "Lun-Vie: 9:00-17:00, Sáb: 9:00-13:00", ["Cuentas", "Créditos", "Cajero"]),
      NewAtm("ATM Guayaquil Centro", "Av. Boyacá y 10 de Agosto, Guayaquil"),
      NewAtm("ATM Riocentro Sur", "Av. Plaza Dañín, Riocentro Sur, Guayaquil") ]
  const RiobambaTemplate: seq<Location> :=
    [ NewBranch("Agencia Riobamba ", "Av. Daniel León Borja y Espejo, Riobamba", "Lun-Vie: 9:00-17:00", ["Cuentas", "Cajero"]),
      NewAtm("ATM Riobamba Centro", "Calle 10 de Agosto y Primera Constituyente, Riobamba") ]
  const CuencaTemplate: seq<Location> :=
    [ NewBranch("Sucursal Cuenca ", "Av. Solano y Gran Colombia, Cuenca", "Lun-Vie: 9:00-17:00, Sáb: 9:00-13:00", ["Cuentas", "Créditos", "Cajero"]),
      NewAtm("ATM Cuenca Centro", "Calle Bolívar y Sucre, Cuenca") ]

  /** A city template with the bank's name appended to the name of its first location. */
  function Fill(template: seq<Location>, bankName: string): (r: seq<Location>)
    ensures |r| == |template|
    ensures |r| > 0 ==> r[0] == template[0].(name := template[0].name + bankName)
    ensures forall i :: 1 <= i < |r| ==> r[i] == template[i]
  {
    if template == [] then [] else [template[0].(name := template[0].name + bankName)] + template[1..]
  }

  /** The template of each city. */
  function Template(city: City): (r: seq<Location>)
    ensures |r| >= 2 && r[0].kind == Branch
    ensures forall i :: 1 <= i < |r| ==> r[i].kind == Atm
  {
    match city
    case Quito => QuitoTemplate
    case Guayaquil => GuayaquilTemplate
    case Riobamba => RiobambaTemplate
    case Cuenca => CuencaTemplate
  }

  /** The table generated for a bank without a hand-written one. */
  function GeneratedEntry(bankName: string): (entry: CityTable)
    ensures forall city :: |entry.At(city)| == |Template(city)|
                           && entry.At(city)[0] == Template(city)[0].(name := Template(city)[0].name + bankName)
                           && entry.At(city)[1..] == Template(city)[1..]
  {
    CityTable(Fill(Template(Quito), bankName), Fill(Template(Guayaquil), bankName),
              Fill(Template(Riobamba), bankName), Fill(Template(Cuenca), bankName))
  }

  /** The directory after the generator has walked through `ids` in order, starting
      from `m`: an id that already has a table keeps it, a missing one gets a
      generated table. */
  function Generate(m: map<string, CityTable>, banks: seq<Bank>, ids: seq<string>): (r: map<string, CityTable>)
    ensures forall id :: id in m ==> id in r && r[id] == m[id]
  {
    if ids == [] then m
    else
      var before := Generate(m, banks, ids[..|ids| - 1]);
      var bankId := ids[|ids| - 1];
      if bankId in before then before else before[bankId := GeneratedEntry(BankName(banks, bankId))]
  }

  /** The directory as the screen sees it once `generateLocationDataForAllBanks` has run. */
  function WithGenerated(m: map<string, CityTable>, banks: seq<Bank>): (r: map<string, CityTable>)
    ensures forall id :: id in m ==> id in r && r[id] == m[id]
  {
    Generate(m, banks, GeneratedIds)
  }

  /** The module-level `locationData` dictionary. */
  class LocationDirectory {
    var data: map<string, CityTable>

    /** Loading the module: the hand-written tables, then one run of the generator. */
    constructor(banks: seq<Bank>)
      ensures data == WithGenerated(HandWritten(), banks)
    {
      data := HandWritten();
      new;
      GenerateForAllBanks(banks);
    }

    /** `generateLocationDataForAllBanks`: walks the ids '3' to '11'. */
    method GenerateForAllBanks(banks: seq<Bank>)
      modifies this
      ensures data == WithGenerated(old(data), banks)
    {
      GenerateMissing(banks, GeneratedIds);
    }

    /** The generator's loop: for each id in turn, insert a generated table when the id
        has none; existing tables are left alone. */
    method GenerateMissing(banks: seq<Bank>, allBanks: seq<string>)
      modifies this
      ensures data == Generate(old(data), banks, allBanks)
    {
      for i := 0 to |allBanks|
        invariant data == Generate(old(data), banks, allBanks[..i])
      {
        var bankId := allBanks[i];
        assert allBanks[..i + 1][..i] == allBanks[..i];
        if bankId !in data {
          var bankName := BankName(banks, bankId);
          data := data[bankId := GeneratedEntry(bankName)];
        }
      }
      assert allBanks[..|allBanks|] == allBanks;
    }
  }

  /** The locations of one bank in one city, or none for a bank without a table. */
  function CityLocations(data: map<string, CityTable>, bankId: string, city: City): (r: seq<Location>)
    ensures bankId !in data ==> r == []
    ensures bankId in data ==> r == data[bankId].At(city)
  {
    if bankId in data then data[bankId].At(city) else []
  }

  /** `locations.filter(loc => loc.type === kind)`. */
  function Filter(locations: seq<Location>, kind: LocationType): (r: seq<Location>)
    ensures |r| <= |locations|
    ensures forall x :: x in r <==> x in locations && x.kind == kind
  {
    if locations == [] then []
    else (if locations[0].kind == kind then [locations[0]] else []) + Filter(locations[1..], kind)
  }

  /** What the screen derives for a bank id and the selected city: the bank shown in the
      header, the branches and the ATMs. */
  datatype View = View(bank: Option<Bank>, branches: seq<Location>, atms: seq<Location>)

  function ScreenView(banks: seq<Bank>, data: map<string, CityTable>, bankId: string, city: City): (v: View)
    ensures v.bank == FindBank(banks, bankId)
    ensures v.bank.None? <==> forall b :: b in banks ==> b.id != bankId
    ensures forall x :: x in v.branches <==> x in CityLocations(data, bankId, city) && x.kind == Branch
    ensures forall x :: x in v.atms <==> x in CityLocations(data, bankId, city) && x.kind == Atm
  {
    var locations := CityLocations(data, bankId, city);
    View(FindBank(banks, bankId), Filter(locations, Branch), Filter(locations, Atm))
  }
}
