/** The generator's three static lookup tables: the product catalogue, the
    branch directory and the special-event calendar. Prices are whole cents. */
module Tables {

  /** Product categories, in the catalogue's declaration order. */
  datatype Category = Cerveza | Licores | Vinos | BebidasPreparadas

  datatype Product = Product(name: string, basePriceCents: nat)

  /** The catalogue: every category offers at least one product and every base
      price is positive, so a product can always be drawn and priced. */
  function Catalogue(c: Category): (ps: seq<Product>)
    ensures |ps| > 0
    ensures forall i :: 0 <= i < |ps| ==> ps[i].basePriceCents >= 250
  {
    match c
    case Cerveza => [
      Product("Pilsen 330ml", 250), Product("Club Colombia 330ml", 320),
      Product("Aguila 330ml", 280), Product("Stella Artois 330ml", 450),
      Product("Corona 355ml", 520), Product("Heineken 330ml", 480),
      Product("BBC Cajica 330ml", 650), Product("Tres Cordilleras IPA 330ml", 720)]
    case Licores => [
      Product("Aguardiente Antioqueno 750ml", 1850), Product("Ron Medellin 750ml", 2200),
      Product("Whisky Old Parr 750ml", 8500), Product("Vodka Smirnoff 750ml", 3200),
      Product("Ron Bacardi 750ml", 2850), Product("Whisky Buchanans 750ml", 12000),
      Product("Aguardiente Nectar 750ml", 1680), Product("Tequila Jose Cuervo 750ml", 4500)]
    case Vinos => [
      Product("Vino Tinto Gato Negro 750ml", 1520), Product("Vino Blanco Santa Helena 750ml", 1250),
      Product("Vino Rose Marques de Caceres 750ml", 1800), Product("Espumoso Freixenet 750ml", 2500),
      Product("Vino Tinto Casillero del Diablo 750ml", 2200), Product("Vino Blanco Concha y Toro 750ml", 1650)]
    case BebidasPreparadas => [
      Product("Smirnoff Ice 275ml", 420), Product("Four Loko 473ml", 680),
      Product("Bacardi Breezer 275ml", 450), Product("Mikes Hard 355ml", 550)]
  }

  datatype Zone = Norte | Sur | Este | Oeste | Centro

  const FirstBranch := 1
  const LastBranch := 15

  /** Branch id to zone. */
  const BranchZones: map<int, Zone> := map[
    1 := Norte, 2 := Norte, 3 := Norte,
    4 := Sur, 5 := Sur, 6 := Sur,
    7 := Este, 8 := Este, 9 := Este,
    10 := Oeste, 11 := Oeste, 12 := Oeste,
    13 := Centro, 14 := Centro, 15 := Centro]

  /** The zones in the order the directory assigns them, three branches each. */
  function ZoneOfBlock(k: int): Zone
    requires 0 <= k < 5
  {
    [Norte, Sur, Este, Oeste, Centro][k]
  }

  /** Exactly the ids 1..15 have a zone, and consecutive blocks of three ids share one. */
  lemma BranchDirectory(id: int)
    ensures id in BranchZones <==> FirstBranch <= id <= LastBranch
    ensures id in BranchZones ==> BranchZones[id] == ZoneOfBlock((id - 1) / 3)
  {
  }

  /** A special event: its name and the (month, day) pairs on which it falls. */
  datatype Event = Event(name: string, dates: seq<(int, int)>)

  /** The tag of a day on which no event falls. */
  const NoEvent := "Ninguno"

  /** The special-event calendar, in declaration order. */
  function EventCalendar(): (cal: seq<Event>)
    ensures |cal| == 7
  {
    [ Event("Año_Nuevo", [(1, 1), (12, 31)]),
      Event("San_Valentin", [(2, 14)]),
      Event("Dia_Padre", [(3, 19), (6, 19)]),
      Event("Pascua", [(4, 17), (4, 9), (3, 31)]),
      Event("Dia_Madre", [(5, 8), (5, 14)]),
      Event("Halloween", [(10, 31)]),
      Event("Navidad", [(12, 24), (12, 25)]) ]
  }
}
