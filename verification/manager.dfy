/** `SistemaReservas`: the manager that owns the hotel and customer lists,
    looks records up by natural key (hotel name, customer email; first match
    wins), and rewrites the backing file of a list after changing it. */
module Reservations {
  import opened Records
  import opened Sequences
  import opened Domain
  import opened Lookup

  /** What an operation reports where the Python program prints a message. */
  datatype Resultado = Ok | ClienteOHotelNoEncontrado | SinHabitaciones | ReservaNoEncontrada

  /** The customers referenced by the reservations of the hotels `hs`. */
  function ClientesReservados(hs: seq<Hotel>): (cs: set<Cliente>)
    reads hs`reservas
  {
    set h, r | h in hs && r in h.reservas :: r.cliente
  }

  /** The list of hotel dictionaries written to the hotels file. */
  function HotelesDict(hs: seq<Hotel>): (ds: seq<HotelDict>)
    reads hs`ubicacion, hs`habitaciones, hs`reservas, ClientesReservados(hs)`nombre
    ensures |ds| == |hs|
    ensures forall i :: 0 <= i < |hs| ==> ds[i] == hs[i].ToDict()
  {
    HotelesDictDesde(hs, 0)
  }

  /** The dictionaries of the hotels of `hs` from position `desde` on. */
  function HotelesDictDesde(hs: seq<Hotel>, desde: nat): (ds: seq<HotelDict>)
    requires desde <= |hs|
    reads hs`ubicacion, hs`habitaciones, hs`reservas, ClientesReservados(hs)`nombre
    ensures |ds| == |hs| - desde
    ensures forall i :: 0 <= i < |ds| ==> ds[i] == hs[desde + i].ToDict()
    decreases |hs| - desde
  {
    if desde == |hs| then [] else [hs[desde].ToDict()] + HotelesDictDesde(hs, desde + 1)
  }

  /** The list of customer dictionaries written to the customers file. */
  function ClientesDict(cs: seq<Cliente>): (ds: seq<ClienteDict>)
    reads cs`nombre
    ensures |ds| == |cs|
    ensures forall i :: 0 <= i < |cs| ==> ds[i] == cs[i].ToDict()
  {
    ClientesDictDesde(cs, 0)
  }

  /** The dictionaries of the customers of `cs` from position `desde` on. */
  function ClientesDictDesde(cs: seq<Cliente>, desde: nat): (ds: seq<ClienteDict>)
    requires desde <= |cs|
    reads cs`nombre
    ensures |ds| == |cs| - desde
    ensures forall i :: 0 <= i < |ds| ==> ds[i] == cs[desde + i].ToDict()
    decreases |cs| - desde
  {
    if desde == |cs| then [] else [cs[desde].ToDict()] + ClientesDictDesde(cs, desde + 1)
  }

  /** The contents of a file, an absent file reading as an empty list. */
  function Contenido<T>(archivo: Option<seq<T>>): (contenido: seq<T>)
  {
    if archivo.Some? then archivo.value else []
  }

  /** The first hotel named `nombre`, as a set: empty when there is none. */
  function PrimeroLlamado(hs: seq<Hotel>, nombre: string): (s: set<Hotel>)
  {
    var i := PrimerHotel(hs, nombre);
    if 0 <= i then {hs[i]} else {}
  }

  /** No hotel holds more reservations than it has rooms. */
  ghost predicate DentroDeCapacidad(hs: seq<Hotel>)
    reads hs
  {
    forall i :: 0 <= i < |hs| ==> hs[i].Cabe()
  }

  class SistemaReservas {
    var hoteles: seq<Hotel>
    var clientes: seq<Cliente>
    /** What the hotels file holds: None while there is no such file. */
    var archivoHoteles: Option<seq<HotelDict>>
    /** What the customers file holds: None while there is no such file. */
    var archivoClientes: Option<seq<ClienteDict>>

    /** Loads both lists from the files (an absent file gives an empty list).
        Every loaded hotel and customer is an object of its own, even when two
        stored records are equal, so changing the first match leaves a later
        duplicate as it was. The customers of the loaded reservations are
        copies, not objects of the customer list, so renaming a customer
        leaves them as they were. */
    constructor (archivoHoteles: Option<seq<HotelDict>>, archivoClientes: Option<seq<ClienteDict>>)
      ensures this.archivoHoteles == archivoHoteles && this.archivoClientes == archivoClientes
      ensures HotelesDict(hoteles) == Contenido(archivoHoteles)
      ensures ClientesDict(clientes) == Contenido(archivoClientes)
      ensures forall i :: 0 <= i < |hoteles| ==> fresh(hoteles[i])
      ensures forall i :: 0 <= i < |clientes| ==> fresh(clientes[i])
      ensures SinRepetir(hoteles) && SinRepetir(clientes)
      ensures forall j, k | 0 <= j < |hoteles| && 0 <= k < |hoteles[j].reservas| ::
        hoteles[j].reservas[k].cliente !in clientes
    {
      var cs := CargarClientes(archivoClientes);
      var hs := CargarHoteles(archivoHoteles);
      this.archivoHoteles := archivoHoteles;
      this.archivoClientes := archivoClientes;
      hoteles, clientes := hs, cs;
    }

    /** Rebuilds every hotel of the file, each as a new object of its own;
        loading then saving writes back exactly what was read (for objects
        with no keys beyond the conversion's). Each loaded reservation gets a
        new customer and a new stub hotel with only the name, which is none
        of the loaded hotels. */
    static method CargarHoteles(archivo: Option<seq<HotelDict>>) returns (hs: seq<Hotel>)
      ensures HotelesDict(hs) == Contenido(archivo)
      ensures forall i :: 0 <= i < |hs| ==> fresh(hs[i])
      ensures SinRepetir(hs)
      ensures forall j, k | 0 <= j < |hs| && 0 <= k < |hs[j].reservas| ::
        var r := hs[j].reservas[k];
        fresh(r.cliente) && fresh(r.hotel) && r.hotel !in hs && r.hotel.ubicacion == "" &&
        r.hotel.habitaciones == 0 && r.hotel.reservas == []
    {
      hs := [];
      if archivo.None? {
        return;
      }
      var data := archivo.value;
      var i := 0;
      while i < |data|
        invariant 0 <= i <= |data| && |hs| == i
        invariant forall j :: 0 <= j < i ==> hs[j].ToDict() == data[j]
        invariant forall j :: 0 <= j < |hs| ==> fresh(hs[j])
        invariant SinRepetir(hs)
        invariant forall j, k | 0 <= j < |hs| && 0 <= k < |hs[j].reservas| ::
          var r := hs[j].reservas[k];
          fresh(r.cliente) && fresh(r.hotel) && r.hotel !in hs && r.hotel.ubicacion == "" &&
          r.hotel.habitaciones == 0 && r.hotel.reservas == []
      {
        var h := Hotel.FromDict(data[i]);
        SinRepetirAgregar(hs, h);
        hs := hs + [h];
        i := i + 1;
      }
    }

    /** Rebuilds every customer of the file, each as a new object of its own;
        loading then saving writes back what was read (for objects with no
        keys beyond the conversion's). */
    static method CargarClientes(archivo: Option<seq<ClienteDict>>) returns (cs: seq<Cliente>)
      ensures ClientesDict(cs) == Contenido(archivo)
      ensures forall i :: 0 <= i < |cs| ==> fresh(cs[i])
      ensures SinRepetir(cs)
    {
      cs := [];
      if archivo.None? {
        return;
      }
      var data := archivo.value;
      var i := 0;
      while i < |data|
        invariant 0 <= i <= |data| && |cs| == i
        invariant forall j :: 0 <= j < i ==> cs[j].ToDict() == data[j]
        invariant forall j :: 0 <= j < |cs| ==> fresh(cs[j])
        invariant SinRepetir(cs)
      {
        var c := Cliente.FromDict(data[i]);
        SinRepetirAgregar(cs, c);
        cs := cs + [c];
        i := i + 1;
      }
    }

    /** Overwrites the hotels file with the current hotel list. */
    method GuardarHoteles()
      modifies this`archivoHoteles
      ensures archivoHoteles == Some(HotelesDict(hoteles))
    {
      archivoHoteles := Some(HotelesDict(hoteles));
    }

    /** Overwrites the customers file with the current customer list. */
    method GuardarClientes()
      modifies this`archivoClientes
      ensures archivoClientes == Some(ClientesDict(clientes))
    {
      archivoClientes := Some(ClientesDict(clientes));
    }

    /** Appends a new hotel without reservations (no check that the name is
        new) and saves the hotels file. */
    method CrearHotel(nombre: string, ubicacion: string, habitaciones: int)
      modifies this`hoteles, this`archivoHoteles
      ensures |hoteles| == |old(hoteles)| + 1 && hoteles[..|old(hoteles)|] == old(hoteles)
      ensures var h := hoteles[|old(hoteles)|];
        fresh(h) && h.nombre == nombre && h.ubicacion == ubicacion &&
        h.habitaciones == habitaciones && h.reservas == []
      ensures PrimerHotel(old(hoteles), nombre) == -1 ==> PrimerHotel(hoteles, nombre) == |old(hoteles)|
      ensures archivoHoteles == Some(HotelesDict(hoteles))
    {
      var hotel := new Hotel(nombre, ubicacion, habitaciones);
      PrimerHotelAppend(hoteles, hotel, nombre);
      hoteles := hoteles + [hotel];
      GuardarHoteles();
    }

    /** Removes every hotel with this name, keeping the others in order, and
        saves the hotels file even when nothing was removed. */
    method EliminarHotel(nombre: string)
      modifies this`hoteles, this`archivoHoteles
      ensures hoteles == SinHotel(old(hoteles), nombre)
      ensures PrimerHotel(hoteles, nombre) == -1
      ensures PrimerHotel(old(hoteles), nombre) == -1 ==> hoteles == old(hoteles)
      ensures archivoHoteles == Some(HotelesDict(hoteles))
    {
      if PrimerHotel(hoteles, nombre) == -1 {
        SinHotelAusente(hoteles, nombre);
      }
      hoteles := SinHotel(hoteles, nombre);
      GuardarHoteles();
    }

    /** The dictionary of the first hotel with this name, or None. */
    method MostrarHotel(nombre: string) returns (d: Option<HotelDict>)
      ensures var i := PrimerHotel(hoteles, nombre);
        d == if i < 0 then None else Some(hoteles[i].ToDict())
    {
      var i := 0;
      while i < |hoteles|
        invariant 0 <= i <= |hoteles|
        invariant forall j :: 0 <= j < i ==> hoteles[j].nombre != nombre
      {
        if hoteles[i].nombre == nombre {
          return Some(hoteles[i].ToDict());
        }
        i := i + 1;
      }
      return None;
    }

    /** Sets location and rooms of the first hotel with this name and saves the
        hotels file; the new number of rooms is not checked against the
        reservations held. Only that hotel may change; a missing name changes
        and saves nothing. */
    method ModificarHotel(nombre: string, ubicacion: string, habitaciones: int)
      modifies this`archivoHoteles
      modifies if 0 <= PrimerHotel(hoteles, nombre) then {hoteles[PrimerHotel(hoteles, nombre)]} else {}
      ensures var i := PrimerHotel(hoteles, nombre);
        if i < 0 then
          archivoHoteles == old(archivoHoteles)
        else
          hoteles[i].ubicacion == ubicacion && hoteles[i].habitaciones == habitaciones &&
          hoteles[i].reservas == old(hoteles[i].reservas) &&
          archivoHoteles == Some(HotelesDict(hoteles))
    {
      var i := 0;
      while i < |hoteles|
        invariant 0 <= i <= |hoteles|
        invariant archivoHoteles == old(archivoHoteles)
        invariant forall j :: 0 <= j < i ==> hoteles[j].nombre != nombre
        invariant 0 <= PrimerHotel(hoteles, nombre) ==> unchanged(hoteles[PrimerHotel(hoteles, nombre)])
      {
        var hotel := hoteles[i];
        if hotel.nombre == nombre {
          hotel.ubicacion := ubicacion;
          hotel.habitaciones := habitaciones;
          GuardarHoteles();
          break;
        }
        i := i + 1;
      }
    }

    /** Appends a new customer (no check that the email is new) and saves the
        customers file. */
    method CrearCliente(nombre: string, email: string)
      modifies this`clientes, this`archivoClientes
      ensures |clientes| == |old(clientes)| + 1 && clientes[..|old(clientes)|] == old(clientes)
      ensures var c := clientes[|old(clientes)|];
        fresh(c) && c.nombre == nombre && c.email == email
      ensures PrimerCliente(old(clientes), email) == -1 ==> PrimerCliente(clientes, email) == |old(clientes)|
      ensures archivoClientes == Some(ClientesDict(clientes))
    {
      var cliente := new Cliente(nombre, email);
      PrimerClienteAppend(clientes, cliente, email);
      clientes := clientes + [cliente];
      GuardarClientes();
    }

    /** Removes every customer with this email, keeping the others in order,
        and saves the customers file. Reservations already made keep
        referring to the removed customer. */
    method EliminarCliente(email: string)
      modifies this`clientes, this`archivoClientes
      ensures clientes == SinCliente(old(clientes), email)
      ensures PrimerCliente(clientes, email) == -1
      ensures PrimerCliente(old(clientes), email) == -1 ==> clientes == old(clientes)
      ensures archivoClientes == Some(ClientesDict(clientes))
    {
      if PrimerCliente(clientes, email) == -1 {
        SinClienteAusente(clientes, email);
      }
      clientes := SinCliente(clientes, email);
      GuardarClientes();
    }

    /** The dictionary of the first customer with this email, or None. */
    method MostrarCliente(email: string) returns (d: Option<ClienteDict>)
      ensures var i := PrimerCliente(clientes, email);
        d == if i < 0 then None else Some(clientes[i].ToDict())
    {
      var i := 0;
      while i < |clientes|
        invariant 0 <= i <= |clientes|
        invariant forall j :: 0 <= j < i ==> clientes[j].email != email
      {
        if clientes[i].email == email {
          return Some(clientes[i].ToDict());
        }
        i := i + 1;
      }
      return None;
    }

    /** Renames the first customer with this email and saves the customers
        file; only that customer may change, and a missing email changes and
        saves nothing. The customer object is the one the reservations point
        to, so the hotels' dictionaries show the new name too, while the
        hotels file keeps the old one until it is next saved. */
    method ModificarCliente(email: string, nombre: string)
      modifies this`archivoClientes
      modifies if 0 <= PrimerCliente(clientes, email) then {clientes[PrimerCliente(clientes, email)]} else {}
      ensures var i := PrimerCliente(clientes, email);
        if i < 0 then
          archivoClientes == old(archivoClientes)
        else
          clientes[i].nombre == nombre && archivoClientes == Some(ClientesDict(clientes))
    {
      var i := 0;
      while i < |clientes|
        invariant 0 <= i <= |clientes|
        invariant archivoClientes == old(archivoClientes)
        invariant forall j :: 0 <= j < i ==> clientes[j].email != email
        invariant 0 <= PrimerCliente(clientes, email) ==> unchanged(clientes[PrimerCliente(clientes, email)])
      {
        var cliente := clientes[i];
        if cliente.email == email {
          cliente.nombre := nombre;
          GuardarClientes();
          break;
        }
        i := i + 1;
      }
    }

    /** Books `fecha` for the first customer with this email at the first hotel
        with this name. Only when both exist and that hotel has a free room
        does that hotel gain one reservation at the end of its list (and the
        hotels file is saved); in every other case nothing changes. No other
        hotel and no customer may change. */
    method CrearReserva(email: string, nombre: string, fecha: string) returns (res: Resultado)
      modifies this`archivoHoteles
      modifies if 0 <= PrimerHotel(hoteles, nombre) then {hoteles[PrimerHotel(hoteles, nombre)]} else {}
      ensures var ci := PrimerCliente(clientes, email);
        var hi := PrimerHotel(hoteles, nombre);
        res == if ci < 0 || hi < 0 then ClienteOHotelNoEncontrado
               else if |old(hoteles[hi].reservas)| < old(hoteles[hi].habitaciones) then Ok
               else SinHabitaciones
      ensures res == Ok ==>
        var h := hoteles[PrimerHotel(hoteles, nombre)];
        var n := |old(h.reservas)|;
        |h.reservas| == n + 1 && h.reservas[..n] == old(h.reservas) &&
        fresh(h.reservas[n]) && h.reservas[n].cliente == clientes[PrimerCliente(clientes, email)] &&
        h.reservas[n].hotel == h && h.reservas[n].fecha == fecha &&
        h.ubicacion == old(h.ubicacion) && h.habitaciones == old(h.habitaciones)
      ensures res != Ok ==> forall h | h in hoteles :: unchanged(h)
      ensures archivoHoteles == if res == Ok then Some(HotelesDict(hoteles)) else old(archivoHoteles)
      ensures var hi := PrimerHotel(hoteles, nombre);
        0 <= hi && old(hoteles[hi].Cabe()) ==> hoteles[hi].Cabe()
      ensures old(DentroDeCapacidad(hoteles)) ==> DentroDeCapacidad(hoteles)
    {
      var ci := PrimerCliente(clientes, email);
      var hi := PrimerHotel(hoteles, nombre);
      if ci >= 0 && hi >= 0 {
        var hotel := hoteles[hi];
        ghost var antes := hotel.reservas;
        var reserva := new Reserva(clientes[ci], hotel, fecha);
        assert hotel.reservas == antes && hotel.habitaciones == old(hotel.habitaciones);
        var ok := hotel.ReservarHabitacion(reserva);
        assert ok <==> |antes| < hotel.habitaciones;
        if ok {
          GuardarHoteles();
          assert hoteles[PrimerHotel(hoteles, nombre)] == hotel && hotel.reservas == antes + [reserva];
          res := Ok;
        } else {
          res := SinHabitaciones;
        }
      } else {
        res := ClienteOHotelNoEncontrado;
      }
    }

    /** Cancels, at the first hotel with this name, its first reservation whose
        customer email and date both match, provided a customer with this
        email exists; the other reservations keep their order, and the hotels
        file is saved. With no such customer, hotel or reservation nothing
        changes. Only that hotel's reservation list may change. */
    method CancelarReserva(email: string, nombre: string, fecha: string) returns (res: Resultado)
      modifies this`archivoHoteles, PrimeroLlamado(hoteles, nombre)`reservas
      ensures var ci := PrimerCliente(clientes, email);
        var hi := PrimerHotel(hoteles, nombre);
        res == if ci < 0 || hi < 0 then ClienteOHotelNoEncontrado
               else if PrimeraReserva(old(hoteles[hi].reservas), email, fecha) < 0 then ReservaNoEncontrada
               else Ok
      ensures var hi := PrimerHotel(hoteles, nombre);
        0 <= hi ==>
          var antes := old(hoteles[hi].reservas);
          hoteles[hi].reservas == if res == Ok then RemoveAt(antes, PrimeraReserva(antes, email, fecha)) else antes
      ensures archivoHoteles == if res == Ok then Some(HotelesDict(hoteles)) else old(archivoHoteles)
      ensures var hi := PrimerHotel(hoteles, nombre);
        0 <= hi && old(hoteles[hi].Cabe()) ==> hoteles[hi].Cabe()
    {
      var ci := PrimerCliente(clientes, email);
      var hi := PrimerHotel(hoteles, nombre);
      if ci >= 0 && hi >= 0 {
        var hotel := hoteles[hi];
        var k := PrimeraReserva(hotel.reservas, email, fecha);
        var ok := false;
        if k >= 0 {
          PrimeraReservaSeQuita(hotel.reservas, email, fecha);
          ok := hotel.CancelarReserva(hotel.reservas[k]);
        }
        if ok {
          GuardarHoteles();
          res := Ok;
        } else {
          res := ReservaNoEncontrada;
        }
      } else {
        res := ClienteOHotelNoEncontrado;
      }
    }
  }
}
