/** The three record classes: `Cliente`, `Reserva` and `Hotel`.
    They are objects, as in the Python program, because the manager updates
    their fields in place and because a reservation is matched by identity:
    two reservations with equal fields are still different reservations. */
module Domain {
  import opened Records
  import opened Sequences

  /** A customer. The email is the natural key and is never reassigned;
      the name is updated in place by the manager. */
  class Cliente {
    var nombre: string
    const email: string

    constructor (nombre: string, email: string)
      ensures this.nombre == nombre && this.email == email
    {
      this.nombre := nombre;
      this.email := email;
    }

    function ToDict(): (d: ClienteDict)
      reads this`nombre
    {
      ClienteDict(nombre, email)
    }

    /** Rebuilds a customer from its dictionary: a new object with the same
        two fields, so converting it back gives the dictionary again. */
    static method FromDict(d: ClienteDict) returns (c: Cliente)
      ensures fresh(c)
      ensures c.nombre == d.nombre && c.email == d.email
      ensures c.ToDict() == d
    {
      c := new Cliente(d.nombre, d.email);
    }
  }

  /** A booking of a customer at a hotel on a date. None of its fields is
      ever reassigned after construction. */
  class Reserva {
    const cliente: Cliente
    const hotel: Hotel
    const fecha: string

    constructor (cliente: Cliente, hotel: Hotel, fecha: string)
      ensures this.cliente == cliente && this.hotel == hotel && this.fecha == fecha
    {
      this.cliente := cliente;
      this.hotel := hotel;
      this.fecha := fecha;
    }

    /** The customer in full, the hotel by its name only, and the date. */
    function ToDict(): (d: ReservaDict)
      reads cliente`nombre
    {
      ReservaDict(cliente.ToDict(), hotel.nombre, fecha)
    }

    /** Rebuilds a reservation with a fresh customer and, as its hotel, a fresh
        stub that carries only the name (empty location, no rooms, no
        reservations); it is not the hotel object of the live collection. */
    static method FromDict(d: ReservaDict) returns (r: Reserva)
      ensures fresh(r) && fresh(r.cliente) && fresh(r.hotel)
      ensures r.cliente.ToDict() == d.cliente && r.fecha == d.fecha
      ensures r.hotel.nombre == d.hotel && r.hotel.ubicacion == ""
      ensures r.hotel.habitaciones == 0 && r.hotel.reservas == []
      ensures r.ToDict() == d
    {
      var cliente := Cliente.FromDict(d.cliente);
      var hotel := new Hotel(d.hotel, "", 0);
      r := new Reserva(cliente, hotel, d.fecha);
    }
  }

  /** The customers the reservations of `rs` point to. */
  function ClientesDe(rs: seq<Reserva>): (cs: set<Cliente>)
  {
    set r | r in rs :: r.cliente
  }

  /** The dictionaries of the reservations of `rs`, position by position. */
  function ReservasDict(rs: seq<Reserva>): (ds: seq<ReservaDict>)
    reads ClientesDe(rs)`nombre
    ensures |ds| == |rs|
    ensures forall i :: 0 <= i < |rs| ==> ds[i] == rs[i].ToDict()
  {
    ReservasDictDesde(rs, 0)
  }

  /** The dictionaries of the reservations of `rs` from position `desde` on. */
  function ReservasDictDesde(rs: seq<Reserva>, desde: nat): (ds: seq<ReservaDict>)
    requires desde <= |rs|
    reads ClientesDe(rs)`nombre
    ensures |ds| == |rs| - desde
    ensures forall i :: 0 <= i < |ds| ==> ds[i] == rs[desde + i].ToDict()
    decreases |rs| - desde
  {
    if desde == |rs| then [] else [rs[desde].ToDict()] + ReservasDictDesde(rs, desde + 1)
  }

  /** A hotel: a name (its natural key, never reassigned), a location, a
      number of rooms and the ordered list of its reservations. */
  class Hotel {
    const nombre: string
    var ubicacion: string
    var habitaciones: int
    var reservas: seq<Reserva>

    constructor (nombre: string, ubicacion: string, habitaciones: int)
      ensures this.nombre == nombre && this.ubicacion == ubicacion
      ensures this.habitaciones == habitaciones && reservas == []
    {
      this.nombre := nombre;
      this.ubicacion := ubicacion;
      this.habitaciones := habitaciones;
      reservas := [];
    }

    /** At most as many reservations as rooms. */
    predicate Cabe()
      reads this
    {
      |reservas| <= habitaciones
    }

    /** Books a room: succeeds, appending `reserva` at the end, exactly when
        fewer reservations than rooms are held; otherwise changes nothing. */
    method ReservarHabitacion(reserva: Reserva) returns (ok: bool)
      modifies this`reservas
      ensures ok <==> |old(reservas)| < habitaciones
      ensures reservas == if ok then old(reservas) + [reserva] else old(reservas)
      ensures old(Cabe()) ==> Cabe()
    {
      if |reservas| < habitaciones {
        reservas := reservas + [reserva];
        return true;
      }
      return false;
    }

    /** Cancels a reservation: when this very reservation object is held, its
        first occurrence is removed (the others keep their order) and the
        result is true; otherwise nothing changes and the result is false. */
    method CancelarReserva(reserva: Reserva) returns (ok: bool)
      modifies this`reservas
      ensures ok <==> reserva in old(reservas)
      ensures ok ==> reservas == RemoveAt(old(reservas), IndexOf(old(reservas), reserva))
      ensures !ok ==> reservas == old(reservas)
      ensures old(Cabe()) ==> Cabe()
    {
      if reserva in reservas {
        reservas := RemoveAt(reservas, IndexOf(reservas, reserva));
        return true;
      }
      return false;
    }

    function ToDict(): (d: HotelDict)
      reads this`ubicacion, this`habitaciones, this`reservas, ClientesDe(reservas)`nombre
    {
      HotelDict(nombre, ubicacion, habitaciones, ReservasDict(reservas))
    }

    /** Rebuilds a hotel from its dictionary. The result converts back to the
        same dictionary; its scalar fields are the dictionary's, and every
        reservation is rebuilt as `Reserva.FromDict` does, with a stub hotel. */
    static method FromDict(d: HotelDict) returns (h: Hotel)
      ensures fresh(h)
      ensures h.nombre == d.nombre && h.ubicacion == d.ubicacion
      ensures h.habitaciones == d.habitaciones
      ensures |h.reservas| == |d.reservas|
      ensures forall i :: 0 <= i < |d.reservas| ==>
        var r := h.reservas[i];
        fresh(r) && fresh(r.cliente) && fresh(r.hotel) &&
        r.cliente.ToDict() == d.reservas[i].cliente && r.fecha == d.reservas[i].fecha &&
        r.hotel.nombre == d.reservas[i].hotel && r.hotel.ubicacion == "" &&
        r.hotel.habitaciones == 0 && r.hotel.reservas == [] && r.hotel != h
      ensures h.ToDict() == d
    {
      h := new Hotel(d.nombre, d.ubicacion, d.habitaciones);
      var rs: seq<Reserva> := [];
      var i := 0;
      while i < |d.reservas|
        invariant 0 <= i <= |d.reservas| && |rs| == i
        invariant forall j :: 0 <= j < i ==>
          var r := rs[j];
          fresh(r) && fresh(r.cliente) && fresh(r.hotel) &&
          r.cliente.ToDict() == d.reservas[j].cliente && r.fecha == d.reservas[j].fecha &&
          r.hotel.nombre == d.reservas[j].hotel && r.hotel.ubicacion == "" &&
          r.hotel.habitaciones == 0 && r.hotel.reservas == [] && r.hotel != h
        invariant forall j :: 0 <= j < i ==> rs[j].ToDict() == d.reservas[j]
        invariant h.nombre == d.nombre && h.ubicacion == d.ubicacion
        invariant h.habitaciones == d.habitaciones
      {
        var r := Reserva.FromDict(d.reservas[i]);
        rs := rs + [r];
        i := i + 1;
      }
      h.reservas := rs;
    }
  }
}
